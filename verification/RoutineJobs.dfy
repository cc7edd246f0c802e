/** The operations on the routine-jobs table, run in place. Each method is one transaction; its
    contract says when it succeeds and what it leaves alone, and ties the new rows to the table
    function of the same operation. */
module RoutineJobs {
  import opened Text
  import opened Sums
  import opened RoutineTable
  import opened JobCalls
  import opened DrainerIntents

  class RoutineJobs {
    var rows: Table

    constructor ()
      ensures rows == map[]
    {
      rows := map[];
    }

    /** The first due row in claim order. */
    method FirstDue(raws: set<string>, now: Time, req: ClaimRequest) returns (r: Option<string>)
      ensures r == Next(rows, raws, now, req)
    {
      var recent := exists n | n in rows :: Stamped(rows, raws, now - FRESHNESS_COOLDOWN, n);
      assert recent == Evidence(rows, raws, now - FRESHNESS_COOLDOWN);
      var names := Candidates(rows, now, req);
      if names == {} {
        return None;
      }
      var n := Earliest(rows, raws, now, recent, req, names);
      FirstUnique(rows, raws, now, req, names, n, Next(rows, raws, now, req).value);
      r := Some(n);
    }

    /** One scan of the candidates for the smallest sort key. */
    static method Earliest(t: Table, raws: set<string>, now: Time, recent: bool, req: ClaimRequest, names: set<string>)
      returns (best: string)
      requires names != {} && forall m :: m in names ==> Due(t, now, req, m)
      requires recent == Evidence(t, raws, now - FRESHNESS_COOLDOWN)
      ensures IsFirst(t, raws, now, req, names, best)
    {
      best :| best in names;
      var left := names - {best};
      while left != {}
        invariant left < names && IsFirst(t, raws, now, req, names - left, best)
        decreases |left|
      {
        var n :| n in left;
        FirstExtends(t, raws, now, req, names - left, best, n);
        assert names - left + {n} == names - (left - {n});
        if KeyLess(SortKey(t, raws, recent, req, n), SortKey(t, raws, recent, req, best)) {
          best := n;
        }
        left := left - {n};
      }
      assert names - left == names;
    }

    method ClaimJob(raws: set<string>, now: Time, req: ClaimRequest) returns (out: ClaimOutcome)
      modifies this
      ensures (rows, out) == Claim(old(rows), raws, now, req)
    {
      if req.recoverHolder {
        var prior := OwnedBy(rows, req.holder);
        if |prior| > 1 {
          return Ambiguous;
        }
        if prior != {} {
          var n :| n in prior;
          assert prior - {n} == {} by { assert |prior - {n}| == |prior| - 1; }
          assert prior == {n};
          return if Admits(rows[n], req, n) then Recovered(n) else Refused;
        }
      }
      var choice: Option<string>;
      if req.name.Some? {
        choice := if Open(rows, req.name.value) then req.name else None;
      } else {
        choice := FirstDue(raws, now, req);
      }
      if choice.None? || Blocked(rows[choice.value], now) {
        return Refused;
      }
      var n := choice.value;
      rows := rows[n := rows[n].(lockedBy := Some(req.holder), lockedAt := Some(now), ttlSecs := Some(req.ttlSecs))];
      return Granted(n);
    }

    method CompleteJob(raws: set<string>, now: Time, name: string, c: Completion) returns (ok: bool)
      modifies this
      ensures ok <==> old(Movable(rows, name) && OwnerMatches(rows[name], c.expectedHolder))
      ensures OneRowCall(old(rows), rows, name, ok) && HeldKept(old(rows), rows)
      ensures ok ==> Unlocked(rows, name) && (name in rows ==> rows[name].lastRunAt == Some(now))
      ensures ok && name in rows && c.status != UNKNOWN ==> Waits(rows, name, NextRun(old(rows[name]), now, c.deferSecs))
      ensures Outcome(rows, ok) == Complete(old(rows), raws, now, name, c)
    {
      if !Movable(rows, name) || !(c.expectedHolder.None? || rows[name].lockedBy == c.expectedHolder) {
        return false;
      }
      var row := rows[name];
      var next := None;
      if c.deferSecs.Some? {
        next := Some(now + c.deferSecs.value * SECOND);
      } else if row.intervalSecs.Some? {
        next := Some(now + row.intervalSecs.value * SECOND);
      }
      row := row.(lastRunAt := Some(now), lastStatus := Some(c.status), lockedBy := None, lockedAt := None, nextRunAt := next);
      if c.summary.Some? {
        row := row.(lastSummary := c.summary);
      }
      rows := rows[name := row];
      if c.deregister && !(c.preserveFreshness && Fresh(rows, raws, name)) {
        rows := rows - {name};
      }
      return true;
    }

    method HoldJob(now: Time, name: string, sessionId: nat, summary: string, expectedBy: Option<string>, expectedAt: Option<Time>)
      returns (ok: bool)
      modifies this
      ensures OneRowCall(old(rows), rows, name, ok)
      ensures ok ==> AlreadyHeldFor(rows, name, sessionId)
      ensures !ok ==> !old(IsJob(rows, name)) || (expectedBy.Some? && expectedAt.Some?)
      ensures Outcome(rows, ok) == Hold(old(rows), now, name, sessionId, summary, expectedBy, expectedAt)
    {
      var guarded := expectedBy.Some? && expectedAt.Some?;
      if !IsJob(rows, name) {
        return false;
      }
      var row := rows[name];
      if guarded && (row.lockedBy != expectedBy || row.lockedAt != expectedAt) {
        return AlreadyHeldFor(rows, name, sessionId);
      }
      row := row.(nextRunAt := None, lastRunAt := Some(now), lockedBy := None, lockedAt := None);
      rows := rows[name := row.(lastStatus := Some(UNKNOWN), lastSummary := Some(HoldSummary(sessionId, summary)))];
      return true;
    }

    method DeregisterJob(raws: set<string>, name: string, preserveFreshness: bool, expected: Option<string>) returns (ok: bool)
      modifies this
      ensures ok ==> old(Open(rows, name) && OwnerMatches(rows[name], expected)) && name !in rows
      ensures OneRowCall(old(rows), rows, name, ok) && HeldKept(old(rows), rows)
      ensures Outcome(rows, ok) == Deregister(old(rows), raws, name, preserveFreshness, expected)
    {
      if !LockClaim(rows, name, expected) {
        return false;
      }
      ok := Open(rows, name) && !(preserveFreshness && Fresh(rows, raws, name));
      if ok {
        rows := rows - {name};
      }
    }

    method TriggerJob(now: Time, name: string) returns (ok: bool)
      modifies this
      ensures ok <==> old(Open(rows, name))
      ensures OneRowCall(old(rows), rows, name, ok) && HeldKept(old(rows), rows)
      ensures ok ==> name in rows && forall later :: later >= now ==>
                (Due(rows, later, AnyClaim(""), name) <==>
                   rows[name].lockedBy.None? || (!Leased(rows[name]) && LeaseEnd(rows[name]).Some? && LeaseEnd(rows[name]).value < later))
      ensures Outcome(rows, ok) == Trigger(old(rows), now, name)
    {
      ok := Open(rows, name);
      if ok {
        var row := rows[name].(nextRunAt := Some(now));
        if row.lastStatus == Some(STOPPED) {
          row := row.(lastStatus := Some(RESUMED));
        }
        rows := rows[name := row];
      }
    }

    method DeferJob(now: Time, name: string, secs: int, expected: Option<string>) returns (ok: bool)
      modifies this
      ensures ok <==> old(Movable(rows, name) && OwnerMatches(rows[name], expected))
      ensures OneRowCall(old(rows), rows, name, ok) && HeldKept(old(rows), rows)
      ensures ok ==> Unlocked(rows, name)
      ensures ok ==> forall later :: Due(rows, later, AnyClaim(""), name) <==> later >= now + secs * SECOND
      ensures Outcome(rows, ok) == Defer(old(rows), now, name, secs, expected)
    {
      if !LockClaim(rows, name, expected) {
        return false;
      }
      ok := Movable(rows, name);
      if ok {
        rows := rows[name := rows[name].(nextRunAt := Some(now + secs * SECOND), lockedBy := None, lockedAt := None)];
      }
    }

    method UpdateJobPayload(name: string, payload: Json, expected: Option<string>) returns (ok: bool)
      modifies this
      ensures ok <==> old(IsJob(rows, name) && OwnerMatches(rows[name], expected))
      ensures OneRowCall(old(rows), rows, name, ok)
      ensures forall req, now :: Candidates(rows, now, req) == old(Candidates(rows, now, req))
      ensures Outcome(rows, ok) == UpdatePayload(old(rows), name, payload, expected)
    {
      ok := LockClaim(rows, name, expected) && IsJob(rows, name);
      if ok {
        rows := rows[name := rows[name].(payload := Some(payload))];
      }
    }

    method RegisterJob(name: string, g: Registration) returns (ok: bool)
      modifies this
      ensures ok <==> name !in old(rows) && !StartsWith(name, WORKER_PREFIX) && g.kind != WORKER_KIND
      ensures OneRowCall(old(rows), rows, name, ok) && HeldKept(old(rows), rows)
      ensures ok ==> Waits(rows, name, g.nextRunAt)
      ensures ok ==> forall later :: Due(rows, later, AnyClaim(""), name) <==> g.nextRunAt.Some? && later >= g.nextRunAt.value
      ensures Outcome(rows, ok) == Register(old(rows), name, g)
    {
      ok := !StartsWith(name, WORKER_PREFIX) && g.kind != WORKER_KIND && name !in rows;
      if ok {
        rows := rows[name := Row(g.kind, g.intervalSecs, g.nextRunAt, None, None, None, None, None, None, g.payload, g.createdBy)];
      }
    }

    method StopUnattemptedJob(name: string) returns (ok: bool)
      modifies this
      ensures ok <==> old(IsJob(rows, name))
      ensures OneRowCall(old(rows), rows, name, ok)
      ensures ok ==> Unlocked(rows, name) && forall req, now :: !Due(rows, now, req, name)
      ensures ok ==> Open(rows, name) && !Movable(rows, name)
      ensures Outcome(rows, ok) == Stop(old(rows), name)
    {
      ok := IsJob(rows, name);
      if ok {
        rows := rows[name := rows[name].(lastStatus := Some(STOPPED), nextRunAt := None, lockedBy := None, lockedAt := None)];
      }
    }

    // ------------------------------------------------------------- worker intents

    /** `drainer_worker_intents`: fails on the first row that is not a valid intent. */
    method DrainerWorkerIntents() returns (r: Option<Intents>)
      ensures r == if AllValid(rows) then Some(Read(rows)) else None
    {
      var left := set n | n in rows && rows[n].kind == WORKER_KIND;
      var result: Intents := map[];
      while left != {}
        invariant forall n :: n in left ==> n in rows && rows[n].kind == WORKER_KIND
        invariant forall n :: n in rows && rows[n].kind == WORKER_KIND && n !in left ==> ValidIntent(n, rows[n].payload)
        invariant result.Keys == set n | n in rows && rows[n].kind == WORKER_KIND && n !in left
        invariant forall n :: n in result ==> result[n] == IntentOf(n, rows[n].payload)
        decreases |left|
      {
        var n :| n in left;
        if !ValidIntent(n, rows[n].payload) {
          return None;
        }
        result := result[n := IntentOf(n, rows[n].payload)];
        left := left - {n};
      }
      assert result == Read(rows);
      return Some(result);
    }

    /** The live ids that no slot accounts for. */
    method CountUntracked(cur: Intents, s: Snapshot) returns (legacy: set<string>)
      ensures legacy == Untracked(cur, s)
    {
      var retired: set<string> := {};
      var left := s.live;
      while left != {}
        invariant left <= s.live
        invariant retired == set w | w in s.live && w !in left && Superseded(cur, w)
        decreases |left|
      {
        var w :| w in left;
        var (slot, text) := SplitLastColon(w);
        if slot in cur && Canonical(text) && 0 < Value(text) < cur[slot].generation {
          retired := retired + {w};
        }
        left := left - {w};
      }
      legacy := s.live - Ids(cur) - retired - if s.completing.Some? then {s.completing.value} else {};
    }

    /** One pass over the slots: how many are occupied, which are free, which ids to retry. */
    method ScanSlots(cur: Intents, s: Snapshot) returns (occupied: nat, available: seq<string>, retry: seq<string>)
      requires Consistent(Ids(cur), s)
      ensures occupied == |Untracked(cur, s)| + BusySlots(cur, s, WORKER_COUNT)
      ensures available == FreeSlots(cur, s, WORKER_COUNT)
      ensures retry == Retries(cur, s, WORKER_COUNT)
    {
      var legacy := CountUntracked(cur, s);
      occupied, available, retry := |legacy|, [], [];
      for i := 0 to WORKER_COUNT
        invariant occupied == |Untracked(cur, s)| + BusySlots(cur, s, i)
        invariant available == FreeSlots(cur, s, i)
        invariant retry == Retries(cur, s, i)
      {
        var name := SlotName(i);
        if name !in cur {
          available := available + [name];
        } else {
          var wid := cur[name].workflowId;
          if s.completing == Some(wid) || (s.statuses[wid].Some? && IsTerminal(s.statuses[wid].value)) {
            available := available + [name];
          } else {
            occupied := occupied + 1;
            if s.statuses[wid].None? {
              retry := retry + [wid];
            }
          }
        }
      }
    }

    /** One upsert per refilled slot; None when a job row has the name of a slot. */
    static method WriteSlots(t: Table, cur: Intents, names: seq<string>) returns (r: Option<Table>, ids: seq<string>)
      requires Tracked(cur)
      ensures r == UpsertFirst(t, cur, names, |names|)
      ensures r.Some? ==> ids == NewIds(cur, names)
    {
      var written := t;
      ids := [];
      for i := 0 to |names|
        invariant UpsertFirst(t, cur, names, i) == Some(written)
        invariant |ids| == i && forall j :: 0 <= j < i ==> ids[j] == WorkflowId(names[j], NextGeneration(cur, names[j]))
      {
        var name := names[i];
        var generation := NextGeneration(cur, name);
        var next := Upsert(written, name, Payload(name, generation));
        if next.None? {
          UpsertStuck(t, cur, names, i + 1, |names|);
          return None, [];
        }
        written := next.value;
        ids := ids + [WorkflowId(name, generation)];
      }
      r := Some(written);
    }

    /** `reserve_drainer_workers`: compare, scan, write; a failure leaves the rows as they were. */
    method ReserveDrainerWorkers(s: Snapshot) returns (r: Reservation)
      modifies this
      ensures (rows, r) == Reserve(old(rows), s)
    {
      var current := DrainerWorkerIntents();
      if current.None? {
        return Failed("invalid drainer worker intent");
      }
      var cur := current.value;
      if cur != s.intents {
        return Changed;
      }
      if !Consistent(Ids(cur), s) {
        return Failed("inconsistent, incomplete or unknown inventory");
      }
      var occupied, available, retry := ScanSlots(cur, s);
      var t, ids := WriteSlots(rows, cur, available[..Min(|available|, Room(occupied))]);
      if t.None? {
        return Failed("drainer worker identity collision");
      }
      rows := t.value;
      return Reserved(retry + ids);
    }

    static lemma {:induction false} UpsertStuck(t: Table, cur: Intents, names: seq<string>, i: nat, k: nat)
      requires Tracked(cur) && i <= k <= |names| && UpsertFirst(t, cur, names, i).None?
      ensures UpsertFirst(t, cur, names, k).None?
    {
      if i < k {
        UpsertStuck(t, cur, names, i, k - 1);
      }
    }
  }
}
