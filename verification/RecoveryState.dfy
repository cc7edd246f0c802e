/** What the recovery routes read: the routine, its session, turns, permits and knowledge
    records, gathered into one state value. A SHA-256 digest is modelled by the value it
    digests, so equal digests mean equal values. */
module RecoveryState {
  import opened Text
  import opened RoutineTable

  const QWEN_KIND := "qwen-drain"
  const REVIEW_JOB := "kg-fact-review"
  const EXTRACTION_VERSION := "kg-drain/luna@v1"
  const MAX_TURNS: nat := 128
  const MAX_PROVENANCE: nat := 1000
  const MAX_MEMBERS: nat := 32

  datatype Result<+T> = Ok(value: T) | Err(reason: string)

  datatype Agent = Agent(
    localSessionId: string,
    workflowId: string,
    status: string,
    nodeKey: string,
    guestId: Option<string>,
    rest: string)

  datatype Dispatch = Dispatch(claimOwner: Option<string>, count: Option<int>, dispatchedAt: Option<Time>)

  datatype Turn = Turn(
    seqNo: int,
    createdAt: Time,
    stopReason: Option<string>,
    terminalReason: Option<string>,
    resultText: Option<string>,
    dispatch: Option<Dispatch>)

  datatype Permit = Permit(
    state: string,
    outcome: Option<string>,
    pendingSeq: Option<int>,
    tier: string,
    jobName: Option<string>,
    sessionId: Option<int>,
    localSessionId: Option<string>,
    owner: Option<string>)

  datatype Flow = Flow(name: string, status: string, version: string)
  datatype Raw = Raw(id: int, source: string, contentHash: string, extra: map<string, Json>)
  datatype Provenance = Provenance(rawFk: int, version: string, note: string)
  datatype Batch = Batch(memberKeys: seq<string>, status: string, completedAt: Option<Time>)
  datatype ReviewRun = ReviewRun(status: string, completedAt: Option<Time>)

  /** The continuity facts last recorded for a permit's guest. */
  datatype Probe = Probe(guestId: Option<string>, generation: Option<int>, invokeStartedAt: Option<int>, updatedAt: Option<int>)

  /** Every record the routes read besides the jobs and the receipts. */
  datatype Records = Records(
    agents: map<nat, Agent>,
    turns: map<nat, seq<Turn>>,
    pending: set<nat>,
    flows: map<string, Flow>,
    permits: map<int, Permit>,
    raws: map<string, Raw>,
    provenance: seq<Provenance>,
    batches: map<string, Batch>,
    runs: map<string, ReviewRun>,
    probes: map<int, Probe>)

  datatype BatchState = BatchState(complete: bool, batch: Option<Batch>, members: seq<ReviewRun>)

  datatype State = State(
    jobName: string,
    sessionId: nat,
    job: Row,
    payload: map<string, Json>,
    agent: Agent,
    turns: seq<Turn>,
    workflow: Option<Flow>,
    pending: bool,
    binding: seq<int>,
    latestRoutine: Option<int>,
    reservations: set<int>,
    reservation: Option<Permit>,
    active: seq<int>,
    batch: Option<BatchState>,
    raw: Option<Raw>,
    provenance: seq<Provenance>)
  {
    function Latest(): Turn
      requires turns != []
    {
      turns[|turns| - 1]
    }
  }

  // -------------------------------------------------------------------- ordering

  lemma HasMember(s: set<int>)
    ensures s == {} || exists a :: a in s
  {
    if forall a :: a !in s { assert s == {}; }
  }

  lemma {:induction false} LowestExists(s: set<int>)
    requires s != {}
    ensures exists x :: x in s && forall y :: y in s ==> x <= y
    decreases |s|
  {
    HasMember(s);
    var a :| a in s;
    var rest := s - {a};
    var low := a;
    if rest != {} {
      LowestExists(rest);
      var b :| b in rest && forall y :: y in rest ==> b <= y;
      low := if a < b then a else b;
    }
    forall y | y in s ensures low <= y {
      assert y == a || y in rest;
    }
  }

  function Lowest(s: set<int>): (r: int)
    requires s != {}
    ensures r in s && forall y :: y in s ==> r <= y
  {
    LowestExists(s);
    var x :| x in s && forall y :: y in s ==> x <= y;
    x
  }

  /** `ORDER BY id LIMIT k`. */
  function Ascending(s: set<int>, k: nat): (r: seq<int>)
    ensures k > 0 && r == [] ==> s == {}
    ensures forall x :: x in r ==> x in s
  {
    if k == 0 || s == {} then [] else [Lowest(s)] + Ascending(s - {Lowest(s)}, k - 1)
  }

  /** `ORDER BY id DESC LIMIT 1`. */
  function Highest(s: set<int>): Option<int> {
    if s == {} then None
    else
      var negated := set x | x in s :: -x;
      assert -Lowest(s) in negated;
      Some(-Lowest(negated))
  }

  // --------------------------------------------------------------------- reading

  function Fields(payload: Option<Json>): Option<map<string, Json>> {
    if payload.Some? && payload.value.JObject? then Some(payload.value.fields) else None
  }

  function MemberKey(key: string, i: nat): string {
    key + ":fact:" + Decimal(i + 1)
  }

  predicate MembersMatch(key: string, keys: seq<string>) {
    |keys| <= MAX_MEMBERS && forall i :: 0 <= i < |keys| ==> keys[i] == MemberKey(key, i)
  }

  function Members(runs: map<string, ReviewRun>, keys: seq<string>): seq<ReviewRun> {
    if keys == [] then []
    else Members(runs, keys[..|keys| - 1]) + (if keys[|keys| - 1] in runs then [runs[keys[|keys| - 1]]] else [])
  }

  predicate RunComplete(r: ReviewRun) {
    r.status == "complete" && r.completedAt.Some?
  }

  /** `_review_batch_state`: a batch counts as complete only with all its members present and
      complete. */
  function ReviewBatchState(rec: Records, key: string): Result<BatchState> {
    if key !in rec.batches then Ok(BatchState(false, None, []))
    else
      var batch := rec.batches[key];
      if !MembersMatch(key, batch.memberKeys) then Err("Fact-review batch membership identity mismatch")
      else
        var members := Members(rec.runs, batch.memberKeys);
        var complete := batch.status == "complete" && batch.completedAt.Some?
                        && |members| == |batch.memberKeys| && forall r :: r in members ==> RunComplete(r);
        Ok(BatchState(complete, Some(batch), members))
  }

  function ProvenanceOf(all: seq<Provenance>, raw: int): seq<Provenance> {
    if all == [] then []
    else
      var last := all[|all| - 1];
      ProvenanceOf(all[..|all| - 1], raw) + (if last.rawFk == raw && last.version == EXTRACTION_VERSION then [last] else [])
  }

  /** The knowledge records behind a job: a review batch, an unread scout, or one raw input. */
  function ReadKnowledge(rec: Records, jobName: string, job: Row, payload: map<string, Json>, agent: Agent)
    : Result<(Option<BatchState>, Option<Raw>, seq<Provenance>)>
  {
    if job.kind != KG_KIND then Ok((None, None, []))
    else if jobName == REVIEW_JOB then
      if payload != map["mode" := JStr("fact-review"), "review_protocol" := JInt(3)]
      then Err("Fact-review payload identity mismatch")
      else
        var batch := ReviewBatchState(rec, agent.localSessionId);
        if batch.Err? then Err(batch.reason) else Ok((Some(batch.value), None, []))
    else if jobName == SCOUT then
      if "mode" in payload && payload["mode"] == JStr("repo-diff") then Ok((None, None, []))
      else Err("Scout payload identity mismatch")
    else
      var rawId := if "raw_id" in payload && payload["raw_id"].JStr? then Some(payload["raw_id"].s) else None;
      if rawId.None? || jobName != "kg:" + rawId.value then Err("Raw payload identity mismatch")
      else if rawId.value !in rec.raws then Err("Exact raw input is missing")
      else
        var raw := rec.raws[rawId.value];
        var provenance := ProvenanceOf(rec.provenance, raw.id);
        if |provenance| > MAX_PROVENANCE then Err("Provenance exceeds the reconciliation bound")
        else Ok((None, Some(raw), provenance))
  }

  function RoutineSuffix(kind: string, jobName: string): string {
    ":" + kind + ":" + jobName
  }

  /** `read_reconciliation_state`. */
  function ReadState(jobs: Table, rec: Records, jobName: string, sid: nat): (r: Result<State>)
    ensures r.Ok? ==> r.value.jobName == jobName && r.value.sessionId == sid && r.value.turns != []
    ensures r.Ok? ==> jobName in jobs && r.value.job == jobs[jobName]
    ensures r.Ok? ==> jobs[jobName].kind == KG_KIND || jobs[jobName].kind == QWEN_KIND
  {
    if jobName !in jobs || sid !in rec.agents then Err("Exact routine/session identity is missing")
    else
      var job, agent := jobs[jobName], rec.agents[sid];
      var turns := if sid in rec.turns then rec.turns[sid] else [];
      if turns == [] || |turns| > MAX_TURNS then Err("Turn evidence is missing or exceeds the reconciliation bound")
      else if job.kind != KG_KIND && job.kind != QWEN_KIND then Err("Unsupported routine kind")
      else
        var payload := Fields(job.payload);
        if payload.None? then Err("Routine payload must be an object")
        else
          var knowledge := ReadKnowledge(rec, jobName, job, payload.value, agent);
          if knowledge.Err? then Err(knowledge.reason)
          else
            var latest := turns[|turns| - 1];
            var held := set p | p in rec.permits && rec.permits[p].sessionId == Some(sid) && rec.permits[p].pendingSeq == Some(latest.seqNo);
            Ok(State(
                 jobName, sid, job, payload.value, agent, turns,
                 if agent.workflowId in rec.flows then Some(rec.flows[agent.workflowId]) else None,
                 sid in rec.pending,
                 Ascending(set a | a in rec.agents && agent.guestId.Some? && rec.agents[a].guestId == agent.guestId :: a as int, 2),
                 Highest(set a | a in rec.agents && rec.agents[a].nodeKey == job.kind
                                 && rec.agents[a].localSessionId == rec.agents[a].workflowId + RoutineSuffix(job.kind, jobName) :: a as int),
                 held,
                 if |held| == 1 then Some(rec.permits[Lowest(held)]) else None,
                 Ascending(set p | p in rec.permits && rec.permits[p].sessionId == Some(sid) && rec.permits[p].state != "settled", 3),
                 knowledge.value.0, knowledge.value.1, knowledge.value.2))
  }

  // ---------------------------------------------------------------- derived facts

  function Passes(st: State): Json {
    if st.raw.Some? && "extraction_passes" in st.raw.value.extra then st.raw.value.extra["extraction_passes"] else JInt(0)
  }

  predicate IsZero(j: Json) {
    j == JInt(0) || j == JBool(false)
  }

  predicate Applied(p: Provenance) {
    p.note != "failed"
  }

  predicate QuietFlow(flow: Option<Flow>) {
    && flow.Some? && flow.value.name == "drain_cycle"
    && flow.value.status in {"SUCCESS", "ERROR", "CANCELLED"}
  }

  /** The session is the routine's own: its local id spells out workflow, kind and job. */
  predicate OwnRoutine(st: State) {
    && st.latestRoutine == Some(st.sessionId)
    && st.agent.nodeKey == st.job.kind
    && st.agent.localSessionId == st.agent.workflowId + RoutineSuffix(st.job.kind, st.jobName)
  }

  predicate MarkedHeld(st: State) {
    && Held(st.job)
    && st.job.nextRunAt.None? && st.job.lockedBy.None? && st.job.lockedAt.None?
    && st.job.lastSummary.Some? && StartsWith(st.job.lastSummary.value, HoldMark(st.sessionId))
  }

  /** The one permit of the attempt is this job's, of this tier and state. */
  predicate OnePermit(st: State, tier: string, state: string) {
    && |st.reservations| == 1 && st.reservation.Some?
    && st.reservation.value.state == state
    && st.reservation.value.tier == tier
    && st.reservation.value.jobName == Some(st.jobName)
    && st.reservation.value.sessionId == Some(st.sessionId)
    && st.reservation.value.localSessionId == Some(st.agent.localSessionId)
  }
}
