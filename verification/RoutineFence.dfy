/** The jobs, the worker intents and the recovery routes composed: what holds over every
    interleaving of job operations, direct writes, reservations, the three routes and whatever the
    rest of the system does to the records the routes read and to jobs that are not held. */
module RoutineFence {
  import opened Text
  import opened RoutineTable
  import opened RecoveryState
  import opened RoutineRecovery
  import JobSafety
  import DrainerIntents
  import DrainerFleet

  datatype Action =
    | Job(now: Time, raws: set<string>, op: Op)
    | Refill(seen: DrainerIntents.Snapshot)
    | HeldRoute(req: Request, now: Time, later: Time, effect: Option<Records>)
    | ReviewRoute(req: Request, observed: Option<Observation>, now: Time, later: Time, effect: Option<Records>)
    | RawRoute(req: Request, enabled: bool, now: Time, written: Written)
    | Elsewhere(jobs: Table, rec: Records)

  predicate IsRoute(a: Action) {
    (a.HeldRoute? && a.req.HeldRequest?) || (a.ReviewRoute? && a.req.ReviewRequest?) || (a.RawRoute? && a.req.RawRequest?)
  }

  predicate Possible(a: Action) {
    a.Job? || a.Refill? || a.Elsewhere? || IsRoute(a)
  }

  /** Held rows keep their status, schedule and lock, and none is added. All else may change. */
  ghost predicate Sparing(t: Table, t': Table) {
    && (forall n :: n in t && Held(t[n]) ==>
          && n in t' && t'[n].kind == t[n].kind && t'[n].lastStatus == t[n].lastStatus
          && t'[n].nextRunAt == t[n].nextRunAt && t'[n].lockedBy == t[n].lockedBy && t'[n].lockedAt == t[n].lockedAt)
    && (forall n :: n in t' && Held(t'[n]) ==> n in t && Held(t[n]))
  }

  /** Whatever else writes the tables spares the held rows and writes no receipt. */
  ghost predicate Allowed(w: World, a: Action) {
    Possible(a) && (a.Elsewhere? ==> Sparing(w.jobs, a.jobs))
  }

  function Answer(w: World, a: Action): (World, Result<Decision>)
    requires IsRoute(a)
  {
    match a
    case HeldRoute(req, now, later, effect) => ReconcileHeld(w, req, now, later, effect)
    case ReviewRoute(req, seen, now, later, effect) => RecoverReview(w, req, seen, now, later, effect)
    case RawRoute(req, enabled, now, written) => RecoverRaw(w, req, enabled, now, written)
  }

  ghost function Do(w: World, a: Action): World
    requires Possible(a)
  {
    match a
    case Job(now, raws, op) => w.(jobs := Apply(w.jobs, raws, now, op))
    case Refill(s) => w.(jobs := DrainerIntents.Reserve(w.jobs, s).0)
    case Elsewhere(jobs, rec) => w.(jobs := jobs, rec := rec)
    case _ => Answer(w, a).0
  }

  ghost predicate IsRun(ws: seq<World>, acts: seq<Action>) {
    && |ws| == |acts| + 1
    && forall i {:trigger acts[i]} :: 0 <= i < |acts| ==> Allowed(ws[i], acts[i]) && ws[i + 1] == Do(ws[i], acts[i])
  }

  // ------------------------------------------------------------ one route, one step

  /** A route's commit: one job row and one new receipt, written together. */
  ghost predicate Commits(w: World, w': World, req: Request, job: string) {
    && IsJob(w.jobs, job) && job in w'.jobs && req.key !in w.receipts && req.key in w'.receipts
    && w'.jobs == w.jobs[job := w'.jobs[job]]
    && var r := w'.receipts[req.key];
       && w'.receipts == w.receipts[req.key := r]
       && r.request == req && r.jobName == job
       && !Decided(w.receipts, r.sessionId, r.turnSeq)
       && r.sessionId == req.sessionId && r.turnSeq > 0
  }

  lemma FinishHeldCommits(w: World, st: State, req: Request, now: Time, rec: Records)
    requires req.HeldRequest? && st.turns != [] && req.key !in w.receipts
    requires IsJob(w.jobs, req.jobName) && st.job == w.jobs[req.jobName]
    ensures var (w', ans) := FinishHeld(w, st, req, now, rec);
            || (w' == w && ans.Err?)
            || (Commits(w, w', req, req.jobName)
                && w'.jobs[req.jobName] == HeldRowAfter(st.job, req.disposition, now)
                && w'.receipts[req.key].disposition == req.disposition && ans == Ok(w'.receipts[req.key].result))
  {
  }

  lemma HeldAdmits(w: World, req: Request, now: Time, later: Time)
    requires req.HeldRequest? && HeldRefusal(w, req, now, later).None?
    ensures var st := ReadState(w.jobs, w.rec, req.jobName, req.sessionId);
            st.Ok? && Held(st.value.job) && st.value.job.kind != WORKER_KIND
  {
  }

  lemma HeldFinishes(w: World, req: Request, now: Time, later: Time, effect: Option<Records>)
    requires req.HeldRequest?
    ensures var out := ReconcileHeld(w, req, now, later, effect);
            || (out.0 == w && (out.1.Ok? ==> req.key in w.receipts))
            || (req.key !in w.receipts && HeldRefusal(w, req, now, later).None? && effect.Some?
                && out == FinishHeld(w, ReadState(w.jobs, w.rec, req.jobName, req.sessionId).value, req, now, effect.value))
  {
  }

  lemma HeldCommits(w: World, req: Request, now: Time, later: Time, effect: Option<Records>)
    requires req.HeldRequest?
    ensures var (w', ans) := ReconcileHeld(w, req, now, later, effect);
            || (w' == w && (ans.Ok? ==> req.key in w.receipts))
            || (Commits(w, w', req, req.jobName) && Held(w.jobs[req.jobName])
                && w'.jobs[req.jobName] == HeldRowAfter(w.jobs[req.jobName], req.disposition, now)
                && w'.receipts[req.key].disposition == req.disposition && ans == Ok(w'.receipts[req.key].result))
  {
    HeldFinishes(w, req, now, later, effect);
    if req.key !in w.receipts && HeldRefusal(w, req, now, later).None? && effect.Some? {
      HeldAdmits(w, req, now, later);
      FinishHeldCommits(w, ReadState(w.jobs, w.rec, req.jobName, req.sessionId).value, req, now, effect.value);
    }
  }

  lemma FinishReviewCommits(w: World, st: State, req: Request, seen: Option<Observation>, now: Time, later: Time, rec: Records)
    requires req.ReviewRequest? && st.turns != [] && req.key !in w.receipts
    requires IsJob(w.jobs, REVIEW_JOB) && st.job == w.jobs[REVIEW_JOB]
    ensures var (w', ans) := FinishReview(w, st, req, seen, now, later, rec);
            (w' == w && ans.Err?) || ReviewCommitted(w, w', req, later, ans)
  {
  }

  ghost predicate ReviewCommitted(w: World, w': World, req: Request, later: Time, ans: Result<Decision>) {
    && Commits(w, w', req, REVIEW_JOB)
    && w'.jobs[REVIEW_JOB] == ReviewRowAfter(w.jobs[REVIEW_JOB], later)
    && w'.receipts[req.key].disposition == "rearm" && ans == Ok(w'.receipts[req.key].result)
  }

  lemma ReviewAdmits(w: World, req: Request)
    requires req.ReviewRequest? && ReviewRefusal(w, req).None?
    ensures var st := ReadState(w.jobs, w.rec, REVIEW_JOB, req.sessionId);
            st.Ok? && Held(st.value.job) && st.value.job.kind != WORKER_KIND
  {
  }

  lemma ReviewFinishes(w: World, req: Request, seen: Option<Observation>, now: Time, later: Time, effect: Option<Records>)
    requires req.ReviewRequest?
    ensures var out := RecoverReview(w, req, seen, now, later, effect);
            || (out.0 == w && (out.1.Ok? ==> req.key in w.receipts))
            || (req.key !in w.receipts && ReviewRefusal(w, req).None? && effect.Some?
                && out == FinishReview(w, ReadState(w.jobs, w.rec, REVIEW_JOB, req.sessionId).value, req, seen, now, later, effect.value))
  {
  }

  lemma ReviewCommits(w: World, req: Request, seen: Option<Observation>, now: Time, later: Time, effect: Option<Records>)
    requires req.ReviewRequest?
    ensures var (w', ans) := RecoverReview(w, req, seen, now, later, effect);
            || (w' == w && (ans.Ok? ==> req.key in w.receipts))
            || (ReviewCommitted(w, w', req, later, ans) && Held(w.jobs[REVIEW_JOB]))
  {
    ReviewFinishes(w, req, seen, now, later, effect);
    if req.key !in w.receipts && ReviewRefusal(w, req).None? && effect.Some? {
      ReviewAdmits(w, req);
      FinishReviewCommits(w, ReadState(w.jobs, w.rec, REVIEW_JOB, req.sessionId).value, req, seen, now, later, effect.value);
    }
  }

  lemma FinishRawCommits(w: World, st: State, req: Request, now: Time, written: Written)
    requires req.RawRequest? && written.Wrote? && st.turns != [] && st.Latest().resultText.Some? && req.key !in w.receipts
    requires IsJob(w.jobs, req.jobName) && st.job == w.jobs[req.jobName]
    ensures var (w', ans) := FinishRaw(w, st, req, now, written);
            || (w' == w && ans.Err?)
            || (Commits(w, w', req, req.jobName)
                && w'.jobs[req.jobName] == RawRowAfter(st.job, req.sessionId, req.key, now)
                && w'.receipts[req.key].disposition == "retain_applied" && ans == Ok(w'.receipts[req.key].result))
  {
  }

  lemma RawFinishes(w: World, req: Request, enabled: bool, now: Time, written: Written)
    requires req.RawRequest?
    ensures var out := RecoverRaw(w, req, enabled, now, written);
            || (out.0 == w && (out.1.Ok? ==> req.key in w.receipts))
            || (req.key !in w.receipts && RawRefusal(w, req, enabled).None? && written.Wrote?
                && out == FinishRaw(w, ReadState(w.jobs, w.rec, req.jobName, req.sessionId).value, req, now, written))
  {
  }

  lemma RawCommits(w: World, req: Request, enabled: bool, now: Time, written: Written)
    requires req.RawRequest?
    ensures var (w', ans) := RecoverRaw(w, req, enabled, now, written);
            || (w' == w && (ans.Ok? ==> req.key in w.receipts))
            || (Commits(w, w', req, req.jobName) && !Held(w.jobs[req.jobName])
                && w'.jobs[req.jobName] == RawRowAfter(w.jobs[req.jobName], req.sessionId, req.key, now)
                && w'.receipts[req.key].disposition == "retain_applied" && ans == Ok(w'.receipts[req.key].result))
  {
    RawFinishes(w, req, enabled, now, written);
    if req.key !in w.receipts && RawRefusal(w, req, enabled).None? && written.Wrote? {
      RawAdmits(w, req, enabled);
      FinishRawCommits(w, ReadState(w.jobs, w.rec, req.jobName, req.sessionId).value, req, now, written);
    }
  }

  ghost function Target(req: Request): string {
    if req.ReviewRequest? then REVIEW_JOB else req.jobName
  }

  /** A route changes nothing, or commits one row, which is held no longer, and its receipt. */
  ghost predicate RouteStep(w: World, w': World, req: Request) {
    || w' == w
    || (Commits(w, w', req, Target(req)) && !Held(w'.jobs[Target(req)])
        && w'.jobs[Target(req)].kind == w.jobs[Target(req)].kind)
  }

  lemma RouteCommits(w: World, a: Action)
    requires IsRoute(a)
    ensures RouteStep(w, Do(w, a), a.req)
  {
    match a
    case HeldRoute(req, now, later, effect) => HeldCommits(w, req, now, later, effect);
    case ReviewRoute(req, seen, now, later, effect) => ReviewCommits(w, req, seen, now, later, effect);
    case RawRoute(req, enabled, now, written) => RawCommits(w, req, enabled, now, written);
  }

  // ------------------------------------------------------- refills leave jobs alone

  /** Row `n` survives with its schedule, lock and status; a new row has no status. */
  ghost predicate Unscathed(t: Table, t': Table, n: string) {
    && (IsJob(t, n) ==> n in t' && t'[n] == t[n])
    && (n in t' && n in t ==>
          t'[n].lastStatus == t[n].lastStatus && t'[n].nextRunAt == t[n].nextRunAt
          && t'[n].lockedBy == t[n].lockedBy && t'[n].lockedAt == t[n].lockedAt)
    && (n in t' && n !in t ==> t'[n].lastStatus.None?)
  }

  lemma UpsertLeaves(t: Table, mid: Table, name: string, payload: Json, n: string)
    requires Unscathed(t, mid, n) && (n in t ==> n in mid)
    ensures var t' := DrainerIntents.Upsert(mid, name, payload);
            t'.Some? ==> Unscathed(t, t'.value, n) && (n in t ==> n in t'.value)
  {
  }

  lemma {:induction false} UpsertsLeaveJobs(t: Table, cur: DrainerIntents.Intents, names: seq<string>, k: nat, n: string)
    requires DrainerIntents.Tracked(cur) && k <= |names|
    ensures var t' := DrainerIntents.UpsertFirst(t, cur, names, k);
            t'.Some? ==> Unscathed(t, t'.value, n) && (n in t ==> n in t'.value)
  {
    if k > 0 {
      UpsertsLeaveJobs(t, cur, names, k - 1, n);
      var rest := DrainerIntents.UpsertFirst(t, cur, names, k - 1);
      if rest.Some? {
        UpsertLeaves(t, rest.value, names[k - 1], DrainerIntents.Payload(names[k - 1], DrainerIntents.NextGeneration(cur, names[k - 1])), n);
      }
    }
  }

  lemma RefillLeavesJobs(t: Table, s: DrainerIntents.Snapshot, n: string)
    ensures Unscathed(t, DrainerIntents.Reserve(t, s).0, n)
  {
    if DrainerIntents.AllValid(t) && DrainerIntents.Consistent(DrainerIntents.Ids(DrainerIntents.Read(t)), s) {
      var cur := DrainerIntents.Read(t);
      var names := DrainerIntents.Refilled(cur, s);
      UpsertsLeaveJobs(t, cur, names, |names|, n);
    }
  }

  /** A recovery route never touches a worker intent, so it is one of the job writes that the
      fleet's bound allows. */
  lemma RoutesLeaveIntents(w: World, a: Action)
    requires IsRoute(a)
    ensures DrainerFleet.SameIntents(w.jobs, Do(w, a).jobs)
  {
    RouteCommits(w, a);
    var w', n := Do(w, a), Target(a.req);
    if w' != w {
      DrainerFleet.RowWriteLeavesIntents(w.jobs, n, w'.jobs[n]);
    }
  }

  // -------------------------------------------------------------------- the fence

  ghost predicate HeldJob(w: World, n: string) {
    IsJob(w.jobs, n) && Held(w.jobs[n])
  }

  /** The step decides an attempt of job `n` and records the receipt in the same transaction. */
  ghost predicate Reconciles(w: World, w': World, a: Action, n: string) {
    IsRoute(a) && Commits(w, w', a.req, n) && !Held(w'.jobs[n])
  }

  lemma JobFence(w: World, raws: set<string>, now: Time, op: Op, n: string)
    requires HeldJob(w, n) && op != StopOp(n)
    ensures IsJob(Apply(w.jobs, raws, now, op), n) && Held(Apply(w.jobs, raws, now, op)[n])
  {
    if op.ClaimOp? || op.CompleteOp? || op.DeregisterOp? || op.TriggerOp? || op.DeferOp? || op.RegisterOp? {
      JobSafety.HeldUntouched(w.jobs, raws, now, op, n);
    }
  }

  lemma StepFence(w: World, w': World, a: Action, n: string)
    requires IsRoute(a) && RouteStep(w, w', a.req) && HeldJob(w, n)
    ensures HeldJob(w', n) || Reconciles(w, w', a, n)
  {
  }

  lemma RouteFence(w: World, a: Action, n: string)
    requires IsRoute(a) && HeldJob(w, n)
    ensures HeldJob(Do(w, a), n) || Reconciles(w, Do(w, a), a, n)
  {
    RouteCommits(w, a);
    StepFence(w, Do(w, a), a, n);
  }

  lemma FenceStep(w: World, a: Action, n: string)
    requires Allowed(w, a) && HeldJob(w, n)
    requires !(a.Job? && a.op == StopOp(n))
    ensures HeldJob(Do(w, a), n) || Reconciles(w, Do(w, a), a, n)
  {
    if a.Job? {
      JobFence(w, a.raws, a.now, a.op, n);
    } else if a.Refill? {
      RefillLeavesJobs(w.jobs, a.seen, n);
    } else if IsRoute(a) {
      RouteFence(w, a, n);
    }
  }

  lemma DirectSpares(t: Table, d: Direct, n: string)
    requires n in t && Held(t[n])
    ensures var t' := WriteDirect(t, d);
            && n in t' && t'[n].kind == t[n].kind && t'[n].lastStatus == t[n].lastStatus
            && t'[n].nextRunAt == t[n].nextRunAt && t'[n].lockedBy == t[n].lockedBy && t'[n].lockedAt == t[n].lockedAt
  {
  }

  lemma DirectHoldsNone(t: Table, d: Direct, n: string)
    requires n in WriteDirect(t, d) && Held(WriteDirect(t, d)[n])
    ensures n in t && Held(t[n])
  {
  }

  /** The writes that other components make to the table directly spare the held rows. */
  lemma DirectIsSparing(t: Table, d: Direct)
    ensures Sparing(t, WriteDirect(t, d))
  {
    forall n | n in t && Held(t[n])
      ensures var t' := WriteDirect(t, d);
              && n in t' && t'[n].kind == t[n].kind && t'[n].lastStatus == t[n].lastStatus
              && t'[n].nextRunAt == t[n].nextRunAt && t'[n].lockedBy == t[n].lockedBy && t'[n].lockedAt == t[n].lockedAt
    {
      DirectSpares(t, d, n);
    }
    forall n | n in WriteDirect(t, d) && Held(WriteDirect(t, d)[n]) ensures n in t && Held(t[n]) {
      DirectHoldsNone(t, d, n);
    }
  }

  /** Over every run, a job held for an unknown outcome leaves that status only by
      `stop_unattempted_job` or in a step that commits a recovery receipt for it. */
  lemma {:induction false} HoldIsFenced(ws: seq<World>, acts: seq<Action>, n: string, i: nat)
    requires IsRun(ws, acts) && i < |ws| && HeldJob(ws[0], n)
    ensures HeldJob(ws[i], n)
            || exists j :: 0 <= j < i && HeldJob(ws[j], n)
                           && ((acts[j].Job? && acts[j].op == StopOp(n)) || Reconciles(ws[j], ws[j + 1], acts[j], n))
  {
    if i > 0 {
      HoldIsFenced(ws, acts, n, i - 1);
      var j := i - 1;
      if HeldJob(ws[j], n) && !(acts[j].Job? && acts[j].op == StopOp(n)) {
        FenceStep(ws[j], acts[j], n);
      }
    }
  }

  ghost predicate KeepsReserved(w: World, a: Action) {
    a.Job? ==> !JobSafety.SchedulesUnknown(w.jobs, a.raws, a.now, a.op)
  }

  lemma QuietStep(w: World, a: Action, w': World)
    requires Allowed(w, a) && w' == Do(w, a) && JobSafety.HeldQuiet(w.jobs) && KeepsReserved(w, a)
    ensures JobSafety.HeldQuiet(w'.jobs)
  {
    if a.Job? {
      JobSafety.QuietExactly(w.jobs, a.raws, a.now, a.op);
    } else if a.Refill? {
      forall n | n in w'.jobs ensures Unscathed(w.jobs, w'.jobs, n) {
        RefillLeavesJobs(w.jobs, a.seen, n);
      }
    } else if IsRoute(a) {
      RouteCommits(w, a);
      StepIsQuiet(w, w', a.req);
    }
  }

  lemma StepIsQuiet(w: World, w': World, req: Request)
    requires RouteStep(w, w', req) && JobSafety.HeldQuiet(w.jobs)
    ensures JobSafety.HeldQuiet(w'.jobs)
  {
  }

  /** A run in which no completion writes the reserved status onto a rescheduled row. */
  ghost predicate ReservedRun(ws: seq<World>, acts: seq<Action>) {
    IsRun(ws, acts) && forall j {:trigger acts[j]} :: 0 <= j < |acts| ==> KeepsReserved(ws[j], acts[j])
  }

  lemma RunQuietStep(ws: seq<World>, acts: seq<Action>, i: nat)
    requires ReservedRun(ws, acts) && i < |acts| && JobSafety.HeldQuiet(ws[i].jobs)
    ensures JobSafety.HeldQuiet(ws[i + 1].jobs)
  {
    QuietStep(ws[i], acts[i], ws[i + 1]);
  }

  /** On such runs every held row in every reachable state is unscheduled and unlocked. */
  lemma {:induction false} HeldRowsStayQuiet(ws: seq<World>, acts: seq<Action>, i: nat)
    requires ReservedRun(ws, acts) && i < |ws| && JobSafety.HeldQuiet(ws[0].jobs)
    ensures JobSafety.HeldQuiet(ws[i].jobs)
  {
    if i > 0 {
      HeldRowsStayQuiet(ws, acts, i - 1);
      RunQuietStep(ws, acts, i - 1);
    }
  }

  // ---------------------------------------------------------- one decision per attempt

  /** Receipts are only ever added, and never for an attempt that already has one. */
  ghost predicate Appends(r: map<string, Receipt>, r': map<string, Receipt>) {
    && (forall k :: k in r ==> k in r' && r'[k] == r[k])
    && (forall k :: k in r' && k !in r ==> !Decided(r, r'[k].sessionId, r'[k].turnSeq))
    && (forall k, l :: k in r' && k !in r && l in r' && l !in r ==> k == l)
  }

  lemma StepAppends(w: World, a: Action)
    requires Possible(a)
    ensures Appends(w.receipts, Do(w, a).receipts)
  {
    if IsRoute(a) { RouteCommits(w, a); }
  }

  ghost predicate OncePerAttempt(r: map<string, Receipt>) {
    forall k, l :: k in r && l in r && r[k].sessionId == r[l].sessionId && r[k].turnSeq == r[l].turnSeq ==> k == l
  }

  lemma AppendsKeepsOnce(r: map<string, Receipt>, r': map<string, Receipt>)
    requires OncePerAttempt(r) && Appends(r, r')
    ensures OncePerAttempt(r')
  {
  }

  lemma {:induction false} ReceiptsLast(ws: seq<World>, acts: seq<Action>, i: nat, j: nat, key: string)
    requires IsRun(ws, acts) && i <= j < |ws| && key in ws[i].receipts
    ensures key in ws[j].receipts && ws[j].receipts[key] == ws[i].receipts[key]
  {
    if i < j {
      ReceiptsLast(ws, acts, i, j - 1, key);
      StepAppends(ws[j - 1], acts[j - 1]);
    }
  }

  /** Step `i` records a decision for the attempt. */
  ghost predicate DecidesAt(ws: seq<World>, i: nat, sid: nat, turnSeq: int)
    requires i + 1 < |ws|
  {
    exists k :: k in ws[i + 1].receipts && k !in ws[i].receipts
                && ws[i + 1].receipts[k].sessionId == sid && ws[i + 1].receipts[k].turnSeq == turnSeq
  }

  /** Over every interleaving of the three routes an attempt gets at most one recorded
      decision: the receipts stay unique per attempt, and no two steps decide the same one. */
  lemma {:induction false} OneDecisionPerAttempt(ws: seq<World>, acts: seq<Action>, i: nat)
    requires IsRun(ws, acts) && i < |ws| && OncePerAttempt(ws[0].receipts)
    ensures OncePerAttempt(ws[i].receipts)
  {
    if i > 0 {
      OneDecisionPerAttempt(ws, acts, i - 1);
      StepAppends(ws[i - 1], acts[i - 1]);
      AppendsKeepsOnce(ws[i - 1].receipts, ws[i].receipts);
    }
  }

  lemma DecidedOnlyOnce(ws: seq<World>, acts: seq<Action>, i: nat, j: nat, sid: nat, turnSeq: int)
    requires IsRun(ws, acts) && i < j < |acts| && DecidesAt(ws, i, sid, turnSeq)
    ensures !DecidesAt(ws, j, sid, turnSeq)
  {
    var k :| k in ws[i + 1].receipts && k !in ws[i].receipts
             && ws[i + 1].receipts[k].sessionId == sid && ws[i + 1].receipts[k].turnSeq == turnSeq;
    ReceiptsLast(ws, acts, i + 1, j, k);
    StepAppends(ws[j], acts[j]);
    assert Decided(ws[j].receipts, sid, turnSeq);
  }

  /** A route that schedules a job records the decision as a rearm of that job, so an attempt
      is rearmed at most as often as it is decided: once. */
  lemma RearmIsRecorded(w: World, a: Action, n: string)
    requires IsRoute(a) && n in w.jobs && n in Do(w, a).jobs
    requires Do(w, a).jobs[n] != w.jobs[n] && Do(w, a).jobs[n].nextRunAt.Some?
    ensures var w' := Do(w, a);
            Commits(w, w', a.req, n) && w'.receipts[a.req.key].disposition == "rearm"
  {
    match a
    case HeldRoute(req, now, later, effect) => HeldCommits(w, req, now, later, effect);
    case ReviewRoute(req, seen, now, later, effect) => ReviewCommits(w, req, seen, now, later, effect);
    case RawRoute(req, enabled, now, written) => RawCommits(w, req, enabled, now, written);
  }

  /** The step changes row `n` and leaves it scheduled. */
  ghost predicate Schedules(w: World, w': World, n: string) {
    n in w.jobs && n in w'.jobs && w'.jobs[n] != w.jobs[n] && w'.jobs[n].nextRunAt.Some?
  }

  /** Over every run an attempt is rearmed at most once: any two steps in which a route schedules a
      job hold receipts for different attempts. */
  lemma RearmedAtMostOnce(ws: seq<World>, acts: seq<Action>, i: nat, j: nat, n: string, m: string)
    requires IsRun(ws, acts) && i < j < |acts| && IsRoute(acts[i]) && IsRoute(acts[j])
    requires Schedules(ws[i], ws[i + 1], n) && Schedules(ws[j], ws[j + 1], m)
    ensures acts[i].req.key in ws[i + 1].receipts && acts[j].req.key in ws[j + 1].receipts
    ensures var first, second := ws[i + 1].receipts[acts[i].req.key], ws[j + 1].receipts[acts[j].req.key];
            && first.disposition == second.disposition == "rearm" && first.jobName == n && second.jobName == m
            && (first.sessionId != second.sessionId || first.turnSeq != second.turnSeq)
  {
    RearmIsRecorded(ws[i], acts[i], n);
    RearmIsRecorded(ws[j], acts[j], m);
    var first := ws[i + 1].receipts[acts[i].req.key];
    assert DecidesAt(ws, i, first.sessionId, first.turnSeq);
    DecidedOnlyOnce(ws, acts, i, j, first.sessionId, first.turnSeq);
  }

  // ----------------------------------------------------------- one transaction each

  /** What the caller of a route can rely on: a refusal changed nothing; an answer under a known key
      is the stored one and changed nothing; an answer under a new key came with exactly one job row
      changed, which is held no longer, and exactly one receipt added, for an attempt that had none. */
  ghost predicate Transacts(w: World, w': World, req: Request, job: string, ans: Result<Decision>) {
    && (ans.Err? ==> w' == w)
    && (ans.Ok? && req.key in w.receipts ==>
          w' == w && w.receipts[req.key].request == req && ans == Ok(w.receipts[req.key].result))
    && (ans.Ok? && req.key !in w.receipts ==>
          Commits(w, w', req, job) && !Held(w'.jobs[job]) && ans == Ok(w'.receipts[req.key].result))
  }

  lemma HeldTransacts(w: World, req: Request, now: Time, later: Time, effect: Option<Records>)
    requires req.HeldRequest?
    ensures var (w', ans) := ReconcileHeld(w, req, now, later, effect); Transacts(w, w', req, req.jobName, ans)
  {
    HeldCommits(w, req, now, later, effect);
  }

  lemma ReviewTransacts(w: World, req: Request, seen: Option<Observation>, now: Time, later: Time, effect: Option<Records>)
    requires req.ReviewRequest?
    ensures var (w', ans) := RecoverReview(w, req, seen, now, later, effect); Transacts(w, w', req, REVIEW_JOB, ans)
  {
    ReviewCommits(w, req, seen, now, later, effect);
  }

  lemma RawTransacts(w: World, req: Request, enabled: bool, now: Time, written: Written)
    requires req.RawRequest?
    ensures var (w', ans) := RecoverRaw(w, req, enabled, now, written); Transacts(w, w', req, req.jobName, ans)
  {
    RawCommits(w, req, enabled, now, written);
  }

  // ------------------------------------------------------------------- idempotency

  lemma ReplayAnswers(w: World, a: Action)
    requires IsRoute(a) && a.req.key in w.receipts && WellFormed(a.req)
    ensures Answer(w, a) == (w, if w.receipts[a.req.key].request == a.req then Ok(w.receipts[a.req.key].result)
                                else Err("Recovery key conflicts with recorded request"))
  {
  }

  /** Once a key has a receipt, every later use of that key, on any route and whatever happened
      in between, changes nothing: the same request gets the stored result, any other request
      is refused. */
  lemma KeysAreIdempotent(ws: seq<World>, acts: seq<Action>, i: nat, j: nat)
    requires IsRun(ws, acts) && i <= j < |acts| && IsRoute(acts[j])
    requires acts[j].req.key in ws[i].receipts && WellFormed(acts[j].req)
    ensures ws[j + 1] == ws[j]
    ensures Answer(ws[j], acts[j]).1 ==
              if ws[i].receipts[acts[j].req.key].request == acts[j].req then Ok(ws[i].receipts[acts[j].req.key].result)
              else Err("Recovery key conflicts with recorded request")
  {
    ReceiptsLast(ws, acts, i, j, acts[j].req.key);
    ReplayAnswers(ws[j], acts[j]);
  }

  // -------------------------------------------------------------- disjoint routes

  lemma SameRoutineState(jobs: Table, rec: Records, job: string, s1: nat, s2: nat)
    requires ReadState(jobs, rec, job, s1).Ok? && ReadState(jobs, rec, job, s2).Ok?
    ensures ReadState(jobs, rec, job, s1).value.latestRoutine == ReadState(jobs, rec, job, s2).value.latestRoutine
  {
  }

  /** No job is ever eligible for two routes at once, for whichever sessions and evidence. */
  lemma RoutesAreDisjoint(jobs: Table, rec: Records, job: string, s1: nat, s2: nat, proof: Proof, disposition: string, p1: int, p2: int)
    requires ReadState(jobs, rec, job, s1).Ok? && ReadState(jobs, rec, job, s2).Ok?
    ensures var a, b := ReadState(jobs, rec, job, s1).value, ReadState(jobs, rec, job, s2).value;
            && !(HeldEligible(a, proof) && RawEligible(b, p2))
            && !(ReviewEligible(a, p1) && RawEligible(b, p2))
            && !(HeldEligible(a, proof) && DispositionAllowed(a, disposition) && ReviewEligible(b, p2))
  {
    SameRoutineState(jobs, rec, job, s1, s2);
  }

  // -------------------------------------------------------------- protected history

  /** A committed held-job decision changed none of the evidence it was based on: the turns,
      the payload, the raw input, its provenance and the review batch read the same after it. */
  lemma HistoryIsProtected(w: World, req: Request, now: Time, later: Time, effect: Option<Records>)
    requires req.HeldRequest? && ReconcileHeld(w, req, now, later, effect).0 != w
    ensures var w' := ReconcileHeld(w, req, now, later, effect).0;
            var before, after := ReadState(w.jobs, w.rec, req.jobName, req.sessionId), ReadState(w'.jobs, w'.rec, req.jobName, req.sessionId);
            && before.Ok? && after.Ok?
            && HeldHistoryKept(before.value, after.value)
            && req.expected == OfState(before.value)
  {
    HeldAdmits(w, req, now, later);
    assert ReconcileHeld(w, req, now, later, effect)
        == FinishHeld(w, ReadState(w.jobs, w.rec, req.jobName, req.sessionId).value, req, now, effect.value);
  }

  /** A committed recomputation left the session, its turns and the payload as it read them. */
  lemma ReviewHistoryIsProtected(w: World, req: Request, seen: Option<Observation>, now: Time, later: Time, effect: Option<Records>)
    requires req.ReviewRequest? && RecoverReview(w, req, seen, now, later, effect).0 != w
    ensures var w' := RecoverReview(w, req, seen, now, later, effect).0;
            var before, after := ReadState(w.jobs, w.rec, REVIEW_JOB, req.sessionId), ReadState(w'.jobs, w'.rec, REVIEW_JOB, req.sessionId);
            before.Ok? && after.Ok? && ReviewHistoryKept(before.value, after.value)
  {
    ReviewFinishes(w, req, seen, now, later, effect);
    ReviewAdmits(w, req);
  }

  /** A committed extraction left the session, its turns, the payload and the reservations as it
      read them. */
  lemma RawHistoryIsProtected(w: World, req: Request, enabled: bool, now: Time, written: Written)
    requires req.RawRequest? && RecoverRaw(w, req, enabled, now, written).0 != w
    ensures var w' := RecoverRaw(w, req, enabled, now, written).0;
            var before, after := ReadState(w.jobs, w.rec, req.jobName, req.sessionId), ReadState(w'.jobs, w'.rec, req.jobName, req.sessionId);
            before.Ok? && after.Ok? && RawHistoryKept(before.value, after.value)
  {
    RawFinishes(w, req, enabled, now, written);
    RawAdmits(w, req, enabled);
  }
}
