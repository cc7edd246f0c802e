/** The recovery routes run in place. Each public method is one transaction over the job rows, the
    receipts and the other records: it leaves all three untouched when it refuses or repeats an
    answer, and otherwise changes one row and adds one receipt. */
module RecoveryLedger {
  import opened Text
  import opened RoutineTable
  import opened RecoveryState
  import opened RoutineRecovery
  import RoutineFence

  class Ledger {
    var jobs: Table
    var receipts: map<string, Receipt>
    var rec: Records

    constructor (jobs: Table, rec: Records)
      ensures Contents() == World(jobs, map[], rec)
    {
      this.jobs, this.receipts, this.rec := jobs, map[], rec;
    }

    function Contents(): World
      reads this
    {
      World(jobs, receipts, rec)
    }

    /** The stored answer of a repeated key. */
    method FindReceipt(req: Request) returns (found: Option<Result<Decision>>)
      ensures found == Replay(Contents(), req)
      ensures found.None? <==> req.key !in receipts
    {
      if req.key !in receipts {
        return None;
      }
      var previous := receipts[req.key];
      if previous.request != req {
        return Some(Err("Recovery key conflicts with recorded request"));
      }
      return Some(Ok(previous.result));
    }

    /** Insert the receipt under the table's constraints; a violation undoes the row update. */
    method Record(before: Row, rec': Records, req: Request, r: Receipt) returns (ans: Result<Decision>)
      requires r.jobName in jobs
      modifies this
      ensures (Contents(), ans) ==
                Commit(World(old(jobs)[r.jobName := before], old(receipts), old(rec)), rec', old(jobs)[r.jobName], req, r)
    {
      if !Insertable(receipts, req.key, r) {
        jobs := jobs[r.jobName := before];
        return Err("Receipt constraint violated");
      }
      assert jobs == jobs[r.jobName := before][r.jobName := jobs[r.jobName]];
      receipts := receipts[req.key := r];
      rec := rec';
      return Ok(r.result);
    }

    /** The writes of a held-job decision, undone when they touched protected history. */
    method ApplyHeld(state: State, req: Request, now: Time, rec': Records) returns (ans: Result<Decision>)
      requires req.HeldRequest? && state.turns != [] && req.jobName in jobs && state.job == jobs[req.jobName]
      modifies this
      ensures (Contents(), ans) == FinishHeld(old(Contents()), state, req, now, rec')
    {
      var turnSeq := state.Latest().seqNo;
      var nextRun := if req.disposition == "rearm" then Some(now) else None;
      jobs := jobs[req.jobName := state.job.(lastStatus := Some("reconciled_unknown"), nextRunAt := nextRun)];
      assert jobs[req.jobName := state.job] == old(jobs);
      var after := ReadState(jobs, rec', req.jobName, req.sessionId);
      if after.Err? || !HeldHistoryKept(state, after.value) {
        jobs := jobs[req.jobName := state.job];
        return Err("Reconciliation changed protected history");
      }
      var result := HeldDecision(req.jobName, req.sessionId, turnSeq, req.disposition, nextRun,
                                 if DeliveryErrorHold(state) then "delivery_error" else UNKNOWN, req.proof.Guest?);
      ans := Record(state.job, rec', req, Receipt(req, req.jobName, req.sessionId, turnSeq, req.disposition, result));
    }

    method ReconcileHeldJob(req: Request, now: Time, later: Time, effect: Option<Records>) returns (ans: Result<Decision>)
      requires req.HeldRequest?
      modifies this
      ensures RoutineFence.Transacts(old(Contents()), Contents(), req, req.jobName, ans)
      ensures (Contents(), ans) == ReconcileHeld(old(Contents()), req, now, later, effect)
    {
      RoutineFence.HeldTransacts(Contents(), req, now, later, effect);
      if !WellFormed(req) {
        return Err("Invalid request");
      }
      var previous := FindReceipt(req);
      if previous.Some? {
        return previous.value;
      }
      var refusal := HeldRefusal(Contents(), req, now, later);
      if refusal.Some? {
        return Err(refusal.value);
      }
      if effect.None? {
        return Err("Settlement refused");
      }
      ans := ApplyHeld(ReadState(jobs, rec, req.jobName, req.sessionId).value, req, now, effect.value);
    }

    /** The writes of a recomputation decision. */
    method ApplyReview(state: State, req: Request, seen: Option<Observation>, now: Time, later: Time, rec': Records)
      returns (ans: Result<Decision>)
      requires req.ReviewRequest? && state.turns != [] && REVIEW_JOB in jobs && state.job == jobs[REVIEW_JOB]
      modifies this
      ensures (Contents(), ans) == FinishReview(old(Contents()), state, req, seen, now, later, rec')
    {
      var probe := ProbeOf(rec, req.permitId);
      var ceased := GuestCeased(state, probe, seen, now);
      jobs := jobs[REVIEW_JOB := state.job.(nextRunAt := Some(later), lastStatus := Some("operator_recompute_unknown"))];
      assert jobs[REVIEW_JOB := state.job] == old(jobs);
      var after := ReadState(jobs, rec', REVIEW_JOB, req.sessionId);
      if after.Err? || !ReviewHistoryKept(state, after.value) {
        jobs := jobs[REVIEW_JOB := state.job];
        return Err("Recovery changed protected execution history");
      }
      if ceased && !GuestCeased(state, probe, seen, later) {
        jobs := jobs[REVIEW_JOB := state.job];
        return Err("Cessation evidence expired while acquiring recovery ownership");
      }
      var result := ReviewDecision(req.sessionId, req.permitId, ceased, Some(later));
      ans := Record(state.job, rec', req, Receipt(req, REVIEW_JOB, req.sessionId, state.Latest().seqNo, "rearm", result));
    }

    method RecoverReviewJob(req: Request, seen: Option<Observation>, now: Time, later: Time, effect: Option<Records>)
      returns (ans: Result<Decision>)
      requires req.ReviewRequest?
      modifies this
      ensures RoutineFence.Transacts(old(Contents()), Contents(), req, REVIEW_JOB, ans)
      ensures (Contents(), ans) == RecoverReview(old(Contents()), req, seen, now, later, effect)
    {
      RoutineFence.ReviewTransacts(Contents(), req, seen, now, later, effect);
      if !WellFormed(req) {
        return Err("Invalid request");
      }
      var previous := FindReceipt(req);
      if previous.Some? {
        return previous.value;
      }
      var refusal := ReviewRefusal(Contents(), req);
      if refusal.Some? {
        return Err(refusal.value);
      }
      if effect.None? {
        return Err("Recomputation refused");
      }
      ans := ApplyReview(ReadState(jobs, rec, REVIEW_JOB, req.sessionId).value, req, seen, now, later, effect.value);
    }

    /** The writes that finish a saved extraction. */
    method ApplyRaw(state: State, req: Request, now: Time, written: Written) returns (ans: Result<Decision>)
      requires req.RawRequest? && written.Wrote? && state.turns != [] && state.Latest().resultText.Some?
      requires req.jobName in jobs && state.job == jobs[req.jobName]
      modifies this
      ensures (Contents(), ans) == FinishRaw(old(Contents()), state, req, now, written)
    {
      jobs := jobs[req.jobName := RawRowAfter(state.job, req.sessionId, req.key, now)];
      assert jobs[req.jobName := state.job] == old(jobs);
      var after := ReadState(jobs, written.rec, req.jobName, req.sessionId);
      if after.Err? || !RawHistoryKept(state, after.value) {
        jobs := jobs[req.jobName := state.job];
        return Err("Recovery changed protected execution history");
      }
      var result := RawDecision(req.jobName, req.sessionId, req.permitId, state.Latest().resultText.value, written.atoms, written.rejected);
      ans := Record(state.job, written.rec, req, Receipt(req, req.jobName, req.sessionId, 1, "retain_applied", result));
    }

    method RecoverCompletedRaw(req: Request, enabled: bool, now: Time, written: Written) returns (ans: Result<Decision>)
      requires req.RawRequest?
      modifies this
      ensures RoutineFence.Transacts(old(Contents()), Contents(), req, req.jobName, ans)
      ensures (Contents(), ans) == RecoverRaw(old(Contents()), req, enabled, now, written)
    {
      RoutineFence.RawTransacts(Contents(), req, enabled, now, written);
      if !WellFormed(req) {
        return Err("Invalid request");
      }
      var previous := FindReceipt(req);
      if previous.Some? {
        return previous.value;
      }
      var refusal := RawRefusal(Contents(), req, enabled);
      if refusal.Some? {
        return Err(refusal.value);
      }
      if !written.Wrote? {
        return Err("Saved result was not newly validated and applied");
      }
      RawAdmits(Contents(), req, enabled);
      ans := ApplyRaw(ReadState(jobs, rec, req.jobName, req.sessionId).value, req, now, written);
    }
  }
}
