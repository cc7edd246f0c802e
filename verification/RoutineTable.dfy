/** The rows of `claude_agent.routine_jobs` and what each operation does to the table.
    One operation is one transaction, so each is a function from table to table; the class in
    `RoutineJobs` runs them in place. Times are microseconds, as in a Postgres timestamp. */
module RoutineTable {
  import opened Text

  type Time = int
  const SECOND: int := 1_000_000

  const UNKNOWN := "invocation_outcome_unknown"
  const STOPPED := "factory_stopped"
  const RESUMED := "factory_resumed"
  const WORKER_KIND := "_drainer-worker"
  const WORKER_PREFIX := "_drainer-worker:"
  const LEASE_PREFIX := "luna-drainer:"
  const KG_KIND := "kg-drain"
  const SCOUT := "kg-repo-diff"
  const FRESHNESS_COOLDOWN: int := 300 * SECOND

  datatype Json =
    | JNull
    | JBool(b: bool)
    | JInt(n: int)
    | JStr(s: string)
    | JArray(items: seq<Json>)
    | JObject(fields: map<string, Json>)

  datatype Row = Row(
    kind: string,
    intervalSecs: Option<int>,
    nextRunAt: Option<Time>,
    lastRunAt: Option<Time>,
    lastStatus: Option<string>,
    lastSummary: Option<string>,
    lockedBy: Option<string>,
    lockedAt: Option<Time>,
    ttlSecs: Option<int>,
    payload: Option<Json>,
    createdBy: string)

  type Table = map<string, Row>

  /** The table after an operation, and whether the operation reported success. */
  datatype Outcome = Outcome(table: Table, ok: bool)

  // ------------------------------------------------------------ row predicates

  predicate Held(r: Row) {
    r.lastStatus == Some(UNKNOWN)
  }

  predicate IsJob(t: Table, name: string) {
    name in t && t[name].kind != WORKER_KIND
  }

  /** A job an operation may reopen: not an intent row and not held. */
  predicate Open(t: Table, name: string) {
    IsJob(t, name) && !Held(t[name])
  }

  /** A job that completion and deferral may touch: neither held nor stopped. */
  predicate Movable(t: Table, name: string) {
    Open(t, name) && t[name].lastStatus != Some(STOPPED)
  }

  predicate Leased(r: Row) {
    r.lockedBy.Some? && StartsWith(r.lockedBy.value, LEASE_PREFIX)
  }

  /** The time a lease runs out, when both stamps are present. */
  function LeaseEnd(r: Row): Option<Time> {
    if r.lockedAt.Some? && r.ttlSecs.Some? then Some(r.lockedAt.value + r.ttlSecs.value * SECOND) else None
  }

  /** The text of a scalar member, as `->>` reads it. A nested member reads as text that no raw
      input has for its id. */
  function ScalarText(j: Json): Option<string> {
    match j
    case JStr(s) => Some(s)
    case JInt(n) => Some(if n >= 0 then Decimal(n) else "-" + Decimal(-n))
    case JBool(b) => Some(if b then "true" else "false")
    case _ => None
  }

  function RawId(payload: Option<Json>): Option<string> {
    match payload
    case Some(JObject(fields)) => if "raw_id" in fields then ScalarText(fields["raw_id"]) else None
    case _ => None
  }

  /** Repository freshness: the scout, or a job for a raw whose source is `repo-diff`. */
  predicate Fresh(t: Table, raws: set<string>, name: string) {
    && name in t
    && t[name].kind == KG_KIND
    && (name == SCOUT || (RawId(t[name].payload).Some? && RawId(t[name].payload).value in raws))
  }

  /** Some freshness row ran or was claimed at or after `since`. */
  ghost predicate Evidence(t: Table, raws: set<string>, since: Time) {
    exists n :: Stamped(t, raws, since, n)
  }

  predicate Stamped(t: Table, raws: set<string>, since: Time, n: string) {
    && Fresh(t, raws, n)
    && ((t[n].lastRunAt.Some? && t[n].lastRunAt.value >= since)
        || (t[n].lockedAt.Some? && t[n].lockedAt.value >= since))
  }

  // --------------------------------------------------------------------- claim

  datatype ClaimRequest = ClaimRequest(
    holder: string,
    ttlSecs: int,
    kind: Option<string>,
    kinds: Option<seq<string>>,
    name: Option<string>,
    preferFreshness: bool,
    excludeNames: set<string>,
    recoverHolder: bool)

  /** `Recovered` hands back a row this holder already owns; `Granted` takes a lease. */
  datatype ClaimOutcome = Refused | Ambiguous | Recovered(name: string) | Granted(name: string)

  /** The rows a holder owns. */
  function OwnedBy(t: Table, holder: string): set<string> {
    set n | n in t && Open(t, n) && t[n].lockedBy == Some(holder)
  }

  /** Eligibility of an unnamed claim. */
  predicate Due(t: Table, now: Time, req: ClaimRequest, n: string) {
    && Open(t, n)
    && t[n].nextRunAt.Some?
    && t[n].nextRunAt.value <= now
    && n !in req.excludeNames
    && (t[n].lockedBy.None?
        || (!Leased(t[n]) && LeaseEnd(t[n]).Some? && LeaseEnd(t[n]).value < now))
    && (req.kind.None? || t[n].kind == req.kind.value)
    && (req.kinds.None? || req.kinds.value == [] || t[n].kind in req.kinds.value)
  }

  function Candidates(t: Table, now: Time, req: ClaimRequest): set<string> {
    set n | n in t && Due(t, now, req, n)
  }

  datatype Key = Key(rank: int, due: Time, name: string)

  predicate KeyLess(a: Key, b: Key) {
    || a.rank < b.rank
    || (a.rank == b.rank && (a.due < b.due || (a.due == b.due && Before(a.name, b.name))))
  }

  /** The sort key of a candidate. Preferring claims put the class whose turn it is first:
      freshness jobs when none ran or was claimed recently, ordinary jobs otherwise. */
  function SortKey(t: Table, raws: set<string>, recent: bool, req: ClaimRequest, n: string): Key
    requires n in t && t[n].nextRunAt.Some?
  {
    Key(if !req.preferFreshness || Fresh(t, raws, n) == !recent then 0 else 1, t[n].nextRunAt.value, n)
  }

  ghost function KeyOf(t: Table, raws: set<string>, now: Time, req: ClaimRequest, n: string): Key
    requires Due(t, now, req, n)
  {
    SortKey(t, raws, Evidence(t, raws, now - FRESHNESS_COOLDOWN), req, n)
  }

  ghost predicate IsFirst(t: Table, raws: set<string>, now: Time, req: ClaimRequest, names: set<string>, n: string)
    requires forall m :: m in names ==> Due(t, now, req, m)
  {
    && n in names
    && forall m :: m in names && m != n ==>
         KeyLess(KeyOf(t, raws, now, req, n), KeyOf(t, raws, now, req, m))
  }

  lemma KeyOrder(a: Key, b: Key, c: Key)
    ensures a.name != b.name ==> KeyLess(a, b) || KeyLess(b, a)
    ensures !(KeyLess(a, b) && KeyLess(b, a))
    ensures KeyLess(a, b) && KeyLess(b, c) ==> KeyLess(a, c)
  {
    BeforeTotal(a.name, b.name);
    if Before(a.name, b.name) && Before(b.name, c.name) {
      BeforeTransitive(a.name, b.name, c.name);
    }
  }

  lemma {:induction false} FirstExists(t: Table, raws: set<string>, now: Time, req: ClaimRequest, names: set<string>)
    requires names != {}
    requires forall m :: m in names ==> Due(t, now, req, m)
    ensures exists n :: IsFirst(t, raws, now, req, names, n)
    decreases |names|
  {
    var a :| a in names;
    if names == {a} {
      assert IsFirst(t, raws, now, req, names, a);
    } else {
      var rest := names - {a};
      assert rest != {};
      FirstExists(t, raws, now, req, rest);
      var b :| IsFirst(t, raws, now, req, rest, b);
      var ka, kb := KeyOf(t, raws, now, req, a), KeyOf(t, raws, now, req, b);
      KeyOrder(ka, kb, ka);
      if KeyLess(kb, ka) {
        assert IsFirst(t, raws, now, req, names, b);
      } else {
        forall m | m in names && m != a ensures KeyLess(ka, KeyOf(t, raws, now, req, m)) {
          KeyOrder(ka, kb, KeyOf(t, raws, now, req, m));
        }
        assert IsFirst(t, raws, now, req, names, a);
      }
    }
  }

  lemma FirstUnique(t: Table, raws: set<string>, now: Time, req: ClaimRequest, names: set<string>, n: string, m: string)
    requires forall x :: x in names ==> Due(t, now, req, x)
    requires IsFirst(t, raws, now, req, names, n) && IsFirst(t, raws, now, req, names, m)
    ensures n == m
  {
    var a, b := KeyOf(t, raws, now, req, n), KeyOf(t, raws, now, req, m);
    KeyOrder(a, b, a);
  }

  /** One more candidate either becomes the first or leaves the first in place. */
  lemma FirstExtends(t: Table, raws: set<string>, now: Time, req: ClaimRequest, names: set<string>, best: string, n: string)
    requires Due(t, now, req, n) && n !in names && forall x :: x in names ==> Due(t, now, req, x)
    requires IsFirst(t, raws, now, req, names, best)
    ensures IsFirst(t, raws, now, req, names + {n},
                    if KeyLess(KeyOf(t, raws, now, req, n), KeyOf(t, raws, now, req, best)) then n else best)
  {
    var a, b := KeyOf(t, raws, now, req, n), KeyOf(t, raws, now, req, best);
    KeyOrder(a, b, a);
    if KeyLess(a, b) {
      forall m | m in names ensures KeyLess(a, KeyOf(t, raws, now, req, m)) {
        KeyOrder(a, b, KeyOf(t, raws, now, req, m));
      }
    }
  }

  /** `ORDER BY ... LIMIT 1` over the candidates. */
  ghost function Next(t: Table, raws: set<string>, now: Time, req: ClaimRequest): (r: Option<string>)
    ensures r.None? <==> Candidates(t, now, req) == {}
    ensures r.Some? ==> IsFirst(t, raws, now, req, Candidates(t, now, req), r.value)
  {
    if Candidates(t, now, req) == {} then None
    else
      FirstExists(t, raws, now, req, Candidates(t, now, req));
      var n :| IsFirst(t, raws, now, req, Candidates(t, now, req), n);
      Some(n)
  }

  function Lock(t: Table, now: Time, req: ClaimRequest, n: string): Table
    requires n in t
  {
    t[n := t[n].(lockedBy := Some(req.holder), lockedAt := Some(now), ttlSecs := Some(req.ttlSecs))]
  }

  /** What an unnamed claim picks, or the named row when it exists and is not held. */
  ghost function Selected(t: Table, raws: set<string>, now: Time, req: ClaimRequest): Option<string> {
    match req.name
    case Some(n) => if Open(t, n) then Some(n) else None
    case None => Next(t, raws, now, req)
  }

  /** A selected row is refused while a deterministic lease or a live legacy lease holds it. */
  predicate Blocked(r: Row, now: Time) {
    || Leased(r)
    || (r.lockedBy.Some? && LeaseEnd(r).Some? && LeaseEnd(r).value > now)
  }

  predicate Admits(r: Row, req: ClaimRequest, name: string) {
    && (req.kind.None? || r.kind == req.kind.value)
    && (req.kinds.None? || r.kind in req.kinds.value)
    && (req.name.None? || name == req.name.value)
  }

  /** `claim_job`. */
  ghost function Claim(t: Table, raws: set<string>, now: Time, req: ClaimRequest): (Table, ClaimOutcome) {
    var prior := OwnedBy(t, req.holder);
    if req.recoverHolder && |prior| > 1 then (t, Ambiguous)
    else if req.recoverHolder && prior != {} then
      var n :| n in prior;
      (t, if Admits(t[n], req, n) then Recovered(n) else Refused)
    else
      var choice := Selected(t, raws, now, req);
      if choice.None? || Blocked(t[choice.value], now) then (t, Refused)
      else (Lock(t, now, req, choice.value), Granted(choice.value))
  }

  // ------------------------------------------------------------ other operations

  datatype Completion = Completion(
    status: string,
    summary: Option<string>,
    expectedHolder: Option<string>,
    deregister: bool,
    preserveFreshness: bool,
    deferSecs: Option<int>)

  function NextRun(r: Row, now: Time, deferSecs: Option<int>): Option<Time> {
    if deferSecs.Some? then Some(now + deferSecs.value * SECOND)
    else if r.intervalSecs.Some? then Some(now + r.intervalSecs.value * SECOND)
    else None
  }

  function Finished(r: Row, now: Time, c: Completion): Row {
    r.(lastRunAt := Some(now),
       lastStatus := Some(c.status),
       lastSummary := if c.summary.Some? then c.summary else r.lastSummary,
       lockedBy := None,
       lockedAt := None,
       nextRunAt := NextRun(r, now, c.deferSecs))
  }

  predicate OwnerMatches(r: Row, expected: Option<string>) {
    expected.None? || r.lockedBy == expected
  }

  /** `complete_job`. */
  function Complete(t: Table, raws: set<string>, now: Time, name: string, c: Completion): Outcome {
    if Movable(t, name) && OwnerMatches(t[name], c.expectedHolder) then
      var done := t[name := Finished(t[name], now, c)];
      if c.deregister && !(c.preserveFreshness && Fresh(done, raws, name))
      then Outcome(done - {name}, true)
      else Outcome(done, true)
    else Outcome(t, false)
  }

  function HoldSummary(sessionId: nat, summary: string): string {
    HoldMark(sessionId) + " " + summary
  }

  function HoldMark(sessionId: nat): string {
    "session_id=" + Decimal(sessionId) + ":"
  }

  function HeldRow(r: Row, now: Time, sessionId: nat, summary: string): Row {
    r.(nextRunAt := None,
       lastRunAt := Some(now),
       lastStatus := Some(UNKNOWN),
       lastSummary := Some(HoldSummary(sessionId, summary)),
       lockedBy := None,
       lockedAt := None)
  }

  /** A guarded hold that finds no matching lease still succeeds on its own earlier hold. */
  predicate AlreadyHeldFor(t: Table, name: string, sessionId: nat) {
    && IsJob(t, name)
    && Held(t[name])
    && t[name].nextRunAt.None?
    && t[name].lockedBy.None?
    && t[name].lockedAt.None?
    && t[name].lastSummary.Some?
    && StartsWith(t[name].lastSummary.value, HoldMark(sessionId))
  }

  /** `hold_job_for_unknown_outcome`; the guard counts only when both parts are given. */
  function Hold(t: Table, now: Time, name: string, sessionId: nat, summary: string,
                expectedBy: Option<string>, expectedAt: Option<Time>): Outcome
  {
    var guarded := expectedBy.Some? && expectedAt.Some?;
    if IsJob(t, name) && (!guarded || (t[name].lockedBy == expectedBy && t[name].lockedAt == expectedAt)) then
      Outcome(t[name := HeldRow(t[name], now, sessionId, summary)], true)
    else
      Outcome(t, guarded && AlreadyHeldFor(t, name, sessionId))
  }

  /** `lock_claim`: no expectation always passes. */
  predicate LockClaim(t: Table, name: string, expected: Option<string>) {
    expected.None? || (IsJob(t, name) && t[name].lockedBy == expected)
  }

  /** `deregister_job`. */
  function Deregister(t: Table, raws: set<string>, name: string, preserveFreshness: bool, expected: Option<string>): Outcome {
    if LockClaim(t, name, expected) && Open(t, name) && !(preserveFreshness && Fresh(t, raws, name))
    then Outcome(t - {name}, true)
    else Outcome(t, false)
  }

  /** `trigger_job`. */
  function Trigger(t: Table, now: Time, name: string): Outcome {
    if Open(t, name) then
      var r := t[name];
      Outcome(t[name := r.(nextRunAt := Some(now),
                           lastStatus := if r.lastStatus == Some(STOPPED) then Some(RESUMED) else r.lastStatus)], true)
    else Outcome(t, false)
  }

  /** `defer_job`. */
  function Defer(t: Table, now: Time, name: string, secs: int, expected: Option<string>): Outcome {
    if LockClaim(t, name, expected) && Movable(t, name) then
      Outcome(t[name := t[name].(nextRunAt := Some(now + secs * SECOND), lockedBy := None, lockedAt := None)], true)
    else Outcome(t, false)
  }

  /** `update_job_payload`. */
  function UpdatePayload(t: Table, name: string, payload: Json, expected: Option<string>): Outcome {
    if LockClaim(t, name, expected) && IsJob(t, name) then
      Outcome(t[name := t[name].(payload := Some(payload))], true)
    else Outcome(t, false)
  }

  datatype Registration = Registration(
    kind: string,
    intervalSecs: Option<int>,
    payload: Option<Json>,
    nextRunAt: Option<Time>,
    createdBy: string)

  /** `register_job`: reserved identities and taken names are refused. */
  function Register(t: Table, name: string, g: Registration): Outcome {
    if StartsWith(name, WORKER_PREFIX) || g.kind == WORKER_KIND || name in t then Outcome(t, false)
    else
      Outcome(t[name := Row(g.kind, g.intervalSecs, g.nextRunAt, None, None, None, None, None, None, g.payload, g.createdBy)], true)
  }

  /** `stop_unattempted_job`: a missing job fails the caller's transaction. */
  function Stop(t: Table, name: string): Outcome {
    if IsJob(t, name) then
      Outcome(t[name := t[name].(lastStatus := Some(STOPPED), nextRunAt := None, lockedBy := None, lockedAt := None)], true)
    else Outcome(t, false)
  }

  // ------------------------------------------------- writes of other components

  /** Writes to the table that do not go through the calls above. All of them name ordinary jobs.
      `Sweep` frees the row of a reservation lost by a terminal workflow. `Retire` drops the
      recurring audit when it is switched off. `Prune` drops finished reviews. `Insert` adds a job
      unless its name is taken. `Recur` and `Renew` add a recurring job or update the one there.
      `Rewrite` replaces a payload. `Cadence` changes an idle job's interval. */
  datatype Direct =
    | Sweep(name: string, workflowId: string)
    | Retire(name: string)
    | Prune(prefix: string, before: Time)
    | Insert(name: string, g: Registration)
    | Recur(name: string, g: Registration)
    | Renew(name: string, g: Registration)
    | Rewrite(name: string, payload: Json)
    | Cadence(name: string, intervalSecs: int, due: Time)

  predicate SweptFrom(holder: string, workflowId: string) {
    StartsWith(holder, LEASE_PREFIX + workflowId + ":")
  }

  predicate Prunable(t: Table, n: string, prefix: string, before: Time) {
    && Open(t, n) && StartsWith(n, prefix)
    && t[n].nextRunAt.None? && t[n].lockedBy.None?
    && t[n].lastRunAt.Some? && t[n].lastRunAt.value < before
  }

  predicate Idle(r: Row) {
    r.lastStatus == Some("ok") && r.nextRunAt.Some? && r.lockedBy.None? && r.lockedAt.None?
  }

  function WriteDirect(t: Table, d: Direct): Table {
    match d
    case Sweep(n, w) =>
      if Open(t, n) && t[n].lockedBy.Some? && SweptFrom(t[n].lockedBy.value, w)
      then t[n := t[n].(lockedBy := None, lockedAt := None)] else t
    case Retire(n) => if Open(t, n) then t - {n} else t
    case Prune(prefix, before) => map n | n in t && !Prunable(t, n, prefix, before) :: t[n]
    case Insert(n, g) => Register(t, n, g).table
    case Recur(n, g) => if IsJob(t, n) then t[n := t[n].(intervalSecs := g.intervalSecs)] else Register(t, n, g).table
    case Renew(n, g) =>
      if Movable(t, n) && t[n].lockedBy.None? && t[n].nextRunAt.Some?
      then t[n := t[n].(intervalSecs := g.intervalSecs, payload := g.payload)] else Register(t, n, g).table
    case Rewrite(n, payload) => if IsJob(t, n) then t[n := t[n].(payload := Some(payload))] else t
    case Cadence(n, secs, due) =>
      if IsJob(t, n) && Idle(t[n]) then t[n := t[n].(intervalSecs := Some(secs), nextRunAt := Some(due))] else t
  }

  // ---------------------------------------------------------------- operations

  datatype Op =
    | ClaimOp(req: ClaimRequest)
    | CompleteOp(name: string, c: Completion)
    | HoldOp(name: string, sessionId: nat, summary: string, expectedBy: Option<string>, expectedAt: Option<Time>)
    | DeregisterOp(name: string, preserveFreshness: bool, expected: Option<string>)
    | TriggerOp(name: string)
    | DeferOp(name: string, secs: int, expected: Option<string>)
    | PayloadOp(name: string, payload: Json, expected: Option<string>)
    | RegisterOp(name: string, g: Registration)
    | StopOp(name: string)
    | DirectOp(d: Direct)

  /** One operation on the table, run at `now` while `raws` are the repo-diff inputs. */
  ghost function Apply(t: Table, raws: set<string>, now: Time, op: Op): Table {
    match op
    case ClaimOp(req) => Claim(t, raws, now, req).0
    case CompleteOp(name, c) => Complete(t, raws, now, name, c).table
    case HoldOp(name, sid, summary, holder, since) => Hold(t, now, name, sid, summary, holder, since).table
    case DeregisterOp(name, keep, expected) => Deregister(t, raws, name, keep, expected).table
    case TriggerOp(name) => Trigger(t, now, name).table
    case DeferOp(name, secs, expected) => Defer(t, now, name, secs, expected).table
    case PayloadOp(name, payload, expected) => UpdatePayload(t, name, payload, expected).table
    case RegisterOp(name, g) => Register(t, name, g).table
    case StopOp(name) => Stop(t, name).table
    case DirectOp(d) => WriteDirect(t, d)
  }
}
