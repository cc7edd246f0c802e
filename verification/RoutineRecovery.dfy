/** The three operator routes out of a stuck routine attempt. Each is one transaction on the
    jobs, the receipts and the other records; the factory and knowledge calls it makes are
    arbitrary effects on the other records, or a refusal. */
module RoutineRecovery {
  import opened Text
  import opened RoutineTable
  import opened RecoveryState
  import Utf8

  const MAX_EVIDENCE_AGE: int := 60 * SECOND
  const MAX_OBSERVATION_AGE: int := 30 * SECOND
  const MAX_OUTPUT: nat := 256_000
  const ACKNOWLEDGMENT := "accept_duplicate_compute_and_writes"

  datatype Digest = OfState(state: State) | OfReview(reviewed: State, probe: Option<Probe>) | Foreign(text: string)

  datatype Failure = Failure(reason: string, uninterrupted: bool)

  /** A control-plane read of one guest; `failure` is reported for failed guests only. */
  datatype Observation = Observation(
    guestId: string,
    state: string,
    generation: int,
    observedAt: Time,
    updatedAt: int,
    lastInvokeAt: Option<int>,
    invokeStartedAt: Option<int>,
    failure: Option<Failure>)

  datatype Proof =
    | Unbound(permitId: int, identity: string, observedAt: Time)
    | Guest(seen: Observation, evidence: string)

  datatype Request =
    | HeldRequest(key: string, actor: string, jobName: string, sessionId: nat, expected: Digest, proof: Proof, disposition: string)
    | ReviewRequest(key: string, actor: string, sessionId: nat, permitId: int, expected: Digest, acknowledgment: string)
    | RawRequest(key: string, actor: string, jobName: string, sessionId: nat, permitId: int, expected: Digest)

  datatype Decision =
    | HeldDecision(jobName: string, sessionId: nat, turnSeq: int, disposition: string, nextRunAt: Option<Time>, outcome: string, ceased: bool)
    | ReviewDecision(sessionId: nat, permitId: int, ceased: bool, nextRunAt: Option<Time>)
    | RawDecision(jobName: string, sessionId: nat, permitId: int, output: string, atoms: nat, rejected: nat)

  datatype Receipt = Receipt(request: Request, jobName: string, sessionId: nat, turnSeq: int, disposition: string, result: Decision)

  datatype World = World(jobs: Table, receipts: map<string, Receipt>, rec: Records)

  // ------------------------------------------------------------------ validation

  predicate Identifier(s: string) {
    !Blank(s) && |s| <= 256
  }

  predicate Hex64(s: string) {
    |s| == 64 && forall c :: c in s ==> IsDigit(c) || 'a' <= c <= 'f'
  }

  predicate ValidDisposition(d: string) {
    d == "rearm" || d == "retain_applied" || d == "stop"
  }

  function Millis(t: Time): int {
    t / 1000
  }

  predicate ValidProof(p: Proof) {
    match p
    case Unbound(permit, identity, _) => permit > 0 && Hex64(identity)
    case Guest(o, evidence) =>
      && o.state in {"parked", "evicted", "destroyed", "failed"}
      && o.generation >= 0
      && (o.failure.Some? <==> o.state == "failed")
      && (o.state == "failed" ==> o.invokeStartedAt.Some?)
      && 0 <= o.updatedAt <= Millis(o.observedAt)
      && (o.lastInvokeAt.Some? ==> 0 <= o.lastInvokeAt.value <= o.updatedAt)
      && Identifier(o.guestId) && Hex64(evidence)
  }

  predicate WellFormed(req: Request) {
    && Identifier(req.key) && Identifier(req.actor) && req.sessionId > 0
    && match req
       case HeldRequest(_, _, jobName, _, _, proof, disposition) =>
         Identifier(jobName) && ValidProof(proof) && ValidDisposition(disposition)
       case ReviewRequest(_, _, _, permit, _, ack) => permit > 0 && ack == ACKNOWLEDGMENT
       case RawRequest(_, _, jobName, _, permit, _) => Identifier(jobName) && permit > 0
  }

  // -------------------------------------------------------------------- receipts

  /** A repeated key answers from its receipt: the stored result for the same request, a
      refusal for any other. */
  function Replay(w: World, req: Request): Option<Result<Decision>> {
    if req.key !in w.receipts then None
    else if w.receipts[req.key].request == req then Some(Ok(w.receipts[req.key].result))
    else Some(Err("Recovery key conflicts with recorded request"))
  }

  predicate Decided(receipts: map<string, Receipt>, sid: nat, turnSeq: int) {
    exists k :: k in receipts && receipts[k].sessionId == sid && receipts[k].turnSeq == turnSeq
  }

  /** The receipt table's own constraints. */
  predicate Insertable(receipts: map<string, Receipt>, key: string, r: Receipt) {
    && key !in receipts
    && !Decided(receipts, r.sessionId, r.turnSeq)
    && r.turnSeq > 0
    && ValidDisposition(r.disposition)
  }

  /** End of a transaction: write the job row and the receipt together, or roll back. */
  function Commit(w: World, rec: Records, row: Row, req: Request, r: Receipt): (World, Result<Decision>) {
    if Insertable(w.receipts, req.key, r)
    then (World(w.jobs[r.jobName := row], w.receipts[req.key := r], rec), Ok(r.result))
    else (w, Err("Receipt constraint violated"))
  }

  // --------------------------------------------------------------------- evidence

  /** `terminal_dispatch_cessation`: the guest's terminal state matches this very dispatch. */
  predicate TerminalDispatch(o: Observation, dispatch: Option<Dispatch>, owner: Option<string>, failedAt: Time, allowFailed: bool) {
    && (if o.state == "failed"
        then allowFailed && o.failure.Some? && o.failure.value.reason == "failed" && o.failure.value.uninterrupted
        else o.state == "evicted" || o.state == "destroyed")
    && dispatch.Some? && owner.Some? && owner.value != ""
    && dispatch.value.claimOwner == owner
    && dispatch.value.count.Some? && dispatch.value.count.value >= 1
    && o.invokeStartedAt.Some? && o.invokeStartedAt.value >= 1 && o.updatedAt >= 1
    && (o.lastInvokeAt.Some? ==> 0 < o.lastInvokeAt.value <= o.updatedAt)
    && !(o.state == "failed" && o.lastInvokeAt.Some? && o.lastInvokeAt.value >= o.invokeStartedAt.value)
    && dispatch.value.dispatchedAt.Some?
    && Millis(dispatch.value.dispatchedAt.value) < o.invokeStartedAt.value <= Millis(failedAt)
    && o.invokeStartedAt.value <= o.updatedAt
  }

  function Owner(st: State): Option<string> {
    if st.reservation.Some? then st.reservation.value.owner else None
  }

  predicate Recent(at: Time, now: Time, age: int) {
    0 <= now - at <= age
  }

  // ------------------------------------------------------------- route 1: held job

  predicate DeliveryErrorHold(st: State)
    requires st.turns != []
  {
    && st.Latest().stopReason.None? && st.Latest().terminalReason == Some("error")
    && st.reservation.Some? && st.reservation.value.state == "uncertain" && st.reservation.value.outcome == Some("delivery_error")
  }

  predicate UnknownHold(st: State)
    requires st.turns != []
  {
    st.Latest().stopReason == Some(UNKNOWN) && st.agent.status == "failed"
  }

  /** The held attempt is quiescent and owned by this session. */
  predicate HeldEligible(st: State, proof: Proof)
    requires st.turns != []
  {
    && MarkedHeld(st) && OwnRoutine(st)
    && (st.job.kind == KG_KIND || st.job.kind == QWEN_KIND)
    && st.binding == (if proof.Unbound? then [] else [st.sessionId])
    && (UnknownHold(st) || (DeliveryErrorHold(st) && st.agent.status == "warn"))
    && !st.pending
    && st.Latest().terminalReason == Some("error")
    && (st.job.kind == QWEN_KIND ==>
          OnePermit(st, "project", "uncertain") && st.active == [Lowest(st.reservations)] && st.Latest().seqNo == 1)
    && QuietFlow(st.workflow)
    && st.agent.guestId == (if proof.Unbound? then None else Some(proof.seen.guestId))
  }

  predicate CessationMatches(st: State, proof: Proof)
    requires st.turns != []
  {
    proof.Guest? ==>
      var o := proof.seen;
      var exact := TerminalDispatch(o, st.Latest().dispatch, Owner(st), st.Latest().createdAt, o.state == "failed");
      (o.invokeStartedAt.Some? ==> exact) && (exact || o.updatedAt >= Millis(st.Latest().createdAt))
  }

  predicate DispositionAllowed(st: State, disposition: string) {
    && (st.batch.Some? ==> st.batch.value.complete)
    && (disposition == "rearm" && st.job.kind == KG_KIND ==> st.provenance == [] && IsZero(Passes(st)))
    && (disposition == "retain_applied" && st.job.kind == KG_KIND && st.batch.None? ==>
          exists p :: p in st.provenance && Applied(p))
  }

  /** Why a held-job request is refused before any effect; None when it may proceed. */
  function HeldRefusal(w: World, req: Request, now: Time, later: Time): Option<string>
    requires req.HeldRequest?
  {
    var st := ReadState(w.jobs, w.rec, req.jobName, req.sessionId);
    var observedAt := if req.proof.Unbound? then req.proof.observedAt else req.proof.seen.observedAt;
    if !Recent(observedAt, now, MAX_EVIDENCE_AGE) then Some("Fresh cessation evidence is required")
    else if st.Err? then Some(st.reason)
    else if req.expected != OfState(st.value) then Some("Expected reconciliation state changed")
    else if !HeldEligible(st.value, req.proof) then Some("Held attempt ownership is not quiescent")
    else if !CessationMatches(st.value, req.proof) then Some("Guest evidence does not match the held dispatch")
    else if Decided(w.receipts, req.sessionId, st.value.Latest().seqNo) then Some("This held attempt was already reconciled")
    else if !DispositionAllowed(st.value, req.disposition) then Some("Disposition is not supported by the evidence")
    else if !Recent(observedAt, later, MAX_EVIDENCE_AGE) then Some("Cessation evidence expired while acquiring ownership")
    else None
  }

  /** History that a held-job decision must not have changed, and what it must have settled. */
  predicate HeldHistoryKept(before: State, after: State) {
    && after.turns == before.turns && after.payload == before.payload
    && after.raw == before.raw && after.provenance == before.provenance && after.batch == before.batch
    && after.agent.guestId.None? && !after.pending
    && (after.agent.status == "failed" || after.agent.status == "warn")
  }

  function HeldRowAfter(row: Row, disposition: string, now: Time): Row {
    row.(lastStatus := Some("reconciled_unknown"), nextRunAt := if disposition == "rearm" then Some(now) else None)
  }

  /** What the transaction writes once the permit is settled, checked against the history. */
  function FinishHeld(w: World, st: State, req: Request, now: Time, rec: Records): (World, Result<Decision>)
    requires req.HeldRequest? && st.turns != []
  {
    var row := HeldRowAfter(st.job, req.disposition, now);
    var after := ReadState(w.jobs[req.jobName := row], rec, req.jobName, req.sessionId);
    if after.Err? || !HeldHistoryKept(st, after.value) then (w, Err("Reconciliation changed protected history"))
    else
      var result := HeldDecision(req.jobName, req.sessionId, st.Latest().seqNo, req.disposition, row.nextRunAt,
                                 if DeliveryErrorHold(st) then "delivery_error" else UNKNOWN, req.proof.Guest?);
      Commit(w, rec, row, req, Receipt(req, req.jobName, req.sessionId, st.Latest().seqNo, req.disposition, result))
  }

  /** `reconcile_held_job`; `effect` is what settling the permit did to the other records. */
  function ReconcileHeld(w: World, req: Request, now: Time, later: Time, effect: Option<Records>): (World, Result<Decision>)
    requires req.HeldRequest?
  {
    var replay := Replay(w, req);
    if !WellFormed(req) then (w, Err("Invalid request"))
    else if replay.Some? then (w, replay.value)
    else
      var refusal := HeldRefusal(w, req, now, later);
      if refusal.Some? then (w, Err(refusal.value))
      else if effect.None? then (w, Err("Settlement refused"))
      else FinishHeld(w, ReadState(w.jobs, w.rec, req.jobName, req.sessionId).value, req, now, effect.value)
  }

  // ---------------------------------------------------------- route 2: held review

  /** `_review_guest_ceased`. */
  predicate GuestCeased(st: State, probe: Option<Probe>, seen: Option<Observation>, now: Time)
    requires st.turns != []
  {
    && seen.Some?
    && var o := seen.value;
       && (probe.Some? ==>
             && (probe.value.guestId.None? || probe.value.guestId == st.agent.guestId)
             && (probe.value.generation.Some? ==> o.generation >= probe.value.generation.value)
             && (probe.value.invokeStartedAt.Some? ==> o.invokeStartedAt == probe.value.invokeStartedAt)
             && (probe.value.updatedAt.Some? ==> o.updatedAt >= probe.value.updatedAt.value))
       && Some(o.guestId) == st.agent.guestId
       && (o.state == "evicted" || o.state == "destroyed")
       && o.generation >= 0
       && Recent(o.observedAt, now, MAX_OBSERVATION_AGE)
       && 0 <= o.updatedAt <= Millis(o.observedAt)
       && TerminalDispatch(o, st.Latest().dispatch, Owner(st), st.Latest().createdAt, false)
  }

  predicate ReviewEligible(st: State, permitId: int)
    requires st.turns != []
  {
    && MarkedHeld(st) && OwnRoutine(st)
    && st.job.kind == KG_KIND
    && st.agent.status == "failed"
    && st.Latest().stopReason == Some(UNKNOWN)
    && st.Latest().terminalReason == Some("error")
    && st.binding == [st.sessionId]
    && !st.pending
    && OnePermit(st, "kg", "uncertain") && st.reservations == {permitId} && st.active == [permitId]
    && QuietFlow(st.workflow)
    && st.batch.Some? && !st.batch.value.complete
  }

  function ProbeOf(rec: Records, permitId: int): Option<Probe> {
    if permitId in rec.probes then Some(rec.probes[permitId]) else None
  }

  function ReviewRefusal(w: World, req: Request): Option<string>
    requires req.ReviewRequest?
  {
    var st := ReadState(w.jobs, w.rec, REVIEW_JOB, req.sessionId);
    if req.sessionId !in w.rec.agents || w.rec.agents[req.sessionId].localSessionId !in w.rec.batches then Some("Missing review batch")
    else if st.Err? then Some(st.reason)
    else if !ReviewEligible(st.value, req.permitId) then Some("Exact held review attempt is not eligible for operator recomputation")
    else if Decided(w.receipts, req.sessionId, st.value.Latest().seqNo) then Some("This attempt already has a recovery decision")
    else if req.expected != OfReview(st.value, ProbeOf(w.rec, req.permitId)) then Some("Expected recovery state changed; preview again")
    else None
  }

  predicate ReviewHistoryKept(before: State, after: State) {
    after.agent == before.agent && after.turns == before.turns && after.payload == before.payload
  }

  function ReviewRowAfter(row: Row, now: Time): Row {
    row.(nextRunAt := Some(now), lastStatus := Some("operator_recompute_unknown"))
  }

  function FinishReview(w: World, st: State, req: Request, seen: Option<Observation>, now: Time, later: Time, rec: Records)
    : (World, Result<Decision>)
    requires req.ReviewRequest? && st.turns != []
  {
    var probe := ProbeOf(w.rec, req.permitId);
    var ceased := GuestCeased(st, probe, seen, now);
    var row := ReviewRowAfter(st.job, later);
    var after := ReadState(w.jobs[REVIEW_JOB := row], rec, REVIEW_JOB, req.sessionId);
    if after.Err? || !ReviewHistoryKept(st, after.value) then (w, Err("Recovery changed protected execution history"))
    else if ceased && !GuestCeased(st, probe, seen, later) then (w, Err("Cessation evidence expired while acquiring recovery ownership"))
    else
      var result := ReviewDecision(req.sessionId, req.permitId, ceased, row.nextRunAt);
      Commit(w, rec, row, req, Receipt(req, REVIEW_JOB, req.sessionId, st.Latest().seqNo, "rearm", result))
  }

  /** `recover_review_job` in apply mode. */
  function RecoverReview(w: World, req: Request, seen: Option<Observation>, now: Time, later: Time, effect: Option<Records>)
    : (World, Result<Decision>)
    requires req.ReviewRequest?
  {
    var replay := Replay(w, req);
    if !WellFormed(req) then (w, Err("Invalid request"))
    else if replay.Some? then (w, replay.value)
    else
      var refusal := ReviewRefusal(w, req);
      if refusal.Some? then (w, Err(refusal.value))
      else if effect.None? then (w, Err("Recomputation refused"))
      else FinishReview(w, ReadState(w.jobs, w.rec, REVIEW_JOB, req.sessionId).value, req, seen, now, later, effect.value)
  }

  // --------------------------------------------------------- route 3: completed raw

  predicate DrainerHolder(holder: Option<string>, workflowId: string) {
    && holder.Some?
    && var prefix := LEASE_PREFIX + workflowId + ":";
       && StartsWith(holder.value, prefix)
       && |holder.value| > |prefix|
       && AllDigits(holder.value[|prefix|..])
  }

  predicate OrdinarySource(raw: Raw) {
    && raw.source in {"ember-session", "codex-session", "agent-report"}
    && "note_id" !in raw.extra && "dispute_id" !in raw.extra
  }

  predicate SavedOutput(text: Option<string>) {
    text.Some? && !Blank(text.value) && Utf8.Size(text.value) <= MAX_OUTPUT
  }

  predicate NoSibling(rec: Records, jobName: string) {
    forall p :: p in rec.permits && rec.permits[p].jobName == Some(jobName) ==> rec.permits[p].state == "settled"
  }

  /** `_completed_raw_state`: the attempt completed, but nothing was applied from it. */
  predicate RawEligible(st: State, permitId: int)
    requires st.turns != []
  {
    && StartsWith(st.jobName, "kg:")
    && OwnRoutine(st) && st.job.kind == KG_KIND
    && st.agent.status == "completed"
    && st.Latest().terminalReason == Some("completed")
    && st.Latest().stopReason.None?
    && st.Latest().seqNo == 1
    && !st.pending && st.active == []
    && OnePermit(st, "kg", "settled") && st.reservations == {permitId}
    && st.reservation.value.outcome == Some("completed")
    && QuietFlow(st.workflow)
    && DrainerHolder(st.job.lockedBy, st.agent.workflowId)
    && st.job.lockedAt.Some?
    && st.job.lastStatus.None?
    && st.provenance == [] && (Passes(st) == JNull || IsZero(Passes(st)))
    && st.binding == (if st.agent.guestId.None? then [] else [st.sessionId])
    && st.raw.Some? && OrdinarySource(st.raw.value)
    && SavedOutput(st.Latest().resultText)
  }

  datatype Written = Raised | AlreadyApplied | Rejected | Wrote(rec: Records, atoms: nat, rejected: nat)

  function RawRefusal(w: World, req: Request, enabled: bool): Option<string>
    requires req.RawRequest?
  {
    var st := ReadState(w.jobs, w.rec, req.jobName, req.sessionId);
    if st.Err? then Some(st.reason)
    else if !RawEligible(st.value, req.permitId) || !NoSibling(w.rec, req.jobName)
    then Some("Completed raw ownership or application evidence is ambiguous")
    else if !enabled then Some("Completed raw recovery is disabled")
    else if req.expected != OfState(st.value) then Some("Expected completed-result state changed")
    else None
  }

  lemma RawAdmits(w: World, req: Request, enabled: bool)
    requires req.RawRequest? && RawRefusal(w, req, enabled).None?
    ensures var st := ReadState(w.jobs, w.rec, req.jobName, req.sessionId);
            st.Ok? && !Held(st.value.job) && st.value.job.kind != WORKER_KIND && st.value.Latest().resultText.Some?
  {
  }

  predicate RawHistoryKept(before: State, after: State) {
    && after.agent == before.agent && after.turns == before.turns && after.payload == before.payload
    && after.reservations == before.reservations
    && after.reservation.Some? && before.reservation.Some? && after.reservation.value.state == before.reservation.value.state
  }

  function RawRowAfter(row: Row, sid: nat, key: string, now: Time): Row {
    row.(lockedBy := None, lockedAt := None, nextRunAt := None, lastRunAt := Some(now),
         lastStatus := Some("reconciled_completed"),
         lastSummary := Some("Saved session " + Decimal(sid) + " applied by recovery " + key))
  }

  function FinishRaw(w: World, st: State, req: Request, now: Time, written: Written): (World, Result<Decision>)
    requires req.RawRequest? && written.Wrote? && st.turns != [] && st.Latest().resultText.Some?
  {
    var row := RawRowAfter(st.job, req.sessionId, req.key, now);
    var after := ReadState(w.jobs[req.jobName := row], written.rec, req.jobName, req.sessionId);
    if after.Err? || !RawHistoryKept(st, after.value) then (w, Err("Recovery changed protected execution history"))
    else
      var result := RawDecision(req.jobName, req.sessionId, req.permitId, st.Latest().resultText.value, written.atoms, written.rejected);
      Commit(w, written.rec, row, req, Receipt(req, req.jobName, req.sessionId, 1, "retain_applied", result))
  }

  /** `recover_completed_raw` in apply mode; `written` is what the extraction writer did. */
  function RecoverRaw(w: World, req: Request, enabled: bool, now: Time, written: Written): (World, Result<Decision>)
    requires req.RawRequest?
  {
    var replay := Replay(w, req);
    if !WellFormed(req) then (w, Err("Invalid request"))
    else if replay.Some? then (w, replay.value)
    else
      var refusal := RawRefusal(w, req, enabled);
      if refusal.Some? then (w, Err(refusal.value))
      else if !written.Wrote? then (w, Err("Saved result was not newly validated and applied"))
      else FinishRaw(w, ReadState(w.jobs, w.rec, req.jobName, req.sessionId).value, req, now, written)
  }
}
