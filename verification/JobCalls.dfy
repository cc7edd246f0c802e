/** What one call on the routine-jobs table means for the calls after it. */
module JobCalls {
  import opened Text
  import opened RoutineTable
  import JobSafety

  // --------------------------------------------------------------- shared promises

  /** No row but `name` differs. */
  ghost predicate OnlyRow(t: Table, t': Table, name: string) {
    forall n :: n != name ==> (n in t' <==> n in t) && (n in t ==> t'[n] == t[n])
  }

  /** Held rows are as they were. */
  ghost predicate HeldKept(t: Table, t': Table) {
    forall n :: n in t && Held(t[n]) ==> n in t' && t'[n] == t[n]
  }

  /** Intent rows are as they were. */
  ghost predicate IntentsKept(t: Table, t': Table) {
    forall n :: n in t && t[n].kind == WORKER_KIND ==> n in t' && t'[n] == t[n]
  }

  /** A call on `name` that reports failure changed nothing, and one that reports success changed
      that row only and no intent. */
  ghost predicate OneRowCall(t: Table, t': Table, name: string, ok: bool) {
    (!ok ==> t' == t) && OnlyRow(t, t', name) && IntentsKept(t, t')
  }

  /** Nobody has a lock on the row. */
  predicate Unlocked(t: Table, n: string) {
    n in t ==> t[n].lockedBy.None? && t[n].lockedAt.None?
  }

  /** A claim without filters. */
  function AnyClaim(holder: string): ClaimRequest {
    ClaimRequest(holder, 0, None, None, None, false, {}, false)
  }

  // -------------------------------------------------------------------------- holds

  /** Two texts that end at the first colon of the same text are the same. */
  lemma SameBeforeColon(a: string, b: string, rest: string)
    requires StartsWith(a + ":" + rest, b + ":")
    ensures a == b || ':' in a || ':' in b
  {
    var s := a + ":" + rest;
    var front := s[..|b| + 1];
    assert front == b + ":" && front[|b|] == ':';
    if |b| < |a| {
      assert a[|b|] == s[|b|] == ':';
    } else if |a| < |b| {
      assert b[|a|] == front[|a|] == s[|a|] == ':';
    } else {
      assert front[..|b|] == b && front[..|a|] == s[..|a|] == a;
    }
  }

  /** The mark of a hold names its session: it starts a summary written for exactly that session. */
  lemma HoldMarksAreExact(held: nat, asked: nat, summary: string)
    ensures StartsWith(HoldSummary(held, summary), HoldMark(asked)) <==> held == asked
  {
    var mark, text := HoldMark(asked), HoldSummary(held, summary);
    var lead := "session_id=";
    var rest := Decimal(held) + ":" + (" " + summary);
    assert text == lead + rest;
    assert mark == lead + (Decimal(asked) + ":");
    assert |mark| <= |text| ==> text[..|mark|] == lead + rest[..|mark| - |lead|];
    if held == asked {
      assert text[..|mark|] == mark;
    } else if StartsWith(text, mark) {
      assert text[..|mark|][|lead|..] == Decimal(asked) + ":";
      assert StartsWith(rest, Decimal(asked) + ":");
      SameBeforeColon(Decimal(held), Decimal(asked), " " + summary);
      ValueOfDecimal(held);
      ValueOfDecimal(asked);
      assert false;
    }
  }

  /** A guarded hold can be repeated: once a job is held, another guarded hold changes nothing, and
      succeeds exactly for the session that it is held for. */
  lemma HoldsRepeatExactly(t: Table, now: Time, name: string, sid: nat, summary: string, expectedBy: Option<string>, expectedAt: Option<Time>,
                           now': Time, sid': nat, summary': string, h: string, at: Time)
    requires IsJob(t, name) && (expectedBy.None? || expectedAt.None? || (t[name].lockedBy == expectedBy && t[name].lockedAt == expectedAt))
    ensures var t' := Hold(t, now, name, sid, summary, expectedBy, expectedAt).table;
            Hold(t', now', name, sid', summary', Some(h), Some(at)) == Outcome(t', sid' == sid)
  {
    HoldMarksAreExact(sid, sid', summary);
  }

  // ----------------------------------------------------- registering and deregistering

  /** Registering takes exactly the free, unreserved names, and deregistering undoes it. */
  lemma RegisterThenDeregister(t: Table, raws: set<string>, name: string, g: Registration)
    ensures Register(t, name, g).ok <==> name !in t && !StartsWith(name, WORKER_PREFIX) && g.kind != WORKER_KIND
    ensures Register(t, name, g).ok ==>
              var t' := Register(t, name, g).table;
              && t' == t[name := t'[name]]
              && Deregister(t', raws, name, false, None) == Outcome(t, true)
              && Deregister(t', raws, name, true, None) == (if Fresh(t', raws, name) then Outcome(t', false) else Outcome(t, true))
  {
    var t' := Register(t, name, g).table;
    assert name !in t ==> t' - {name} == t;
  }

  // ------------------------------------------------------------------------ payloads

  /** A payload may be replaced at any time: what is due, held and owned is the same after it. */
  lemma PayloadsAreInert(t: Table, name: string, payload: Json, expected: Option<string>, now: Time, req: ClaimRequest, holder: string)
    ensures var t' := UpdatePayload(t, name, payload, expected).table;
            && Candidates(t', now, req) == Candidates(t, now, req) && OwnedBy(t', holder) == OwnedBy(t, holder)
            && forall n :: n in t ==> n in t' && Held(t'[n]) == Held(t[n])
  {
    var t' := UpdatePayload(t, name, payload, expected).table;
    forall n ensures Due(t', now, req, n) == Due(t, now, req, n) {
    }
  }

  // ------------------------------------------------------------- from one call to the next

  /** The time from which a call leaves job `n` free to be claimed: the outer option is none unless
      the call succeeds and leaves the job free, the inner one if the job is then never due. */
  function Released(t: Table, raws: set<string>, now: Time, op: Op, n: string): Option<Option<Time>> {
    match op
    case CompleteOp(m, c) =>
      if m == n && Movable(t, n) && OwnerMatches(t[n], c.expectedHolder) && c.status != UNKNOWN
         && (c.deregister ==> c.preserveFreshness && Fresh(t, raws, n))
      then Some(NextRun(t[n], now, c.deferSecs)) else None
    case DeferOp(m, secs, expected) =>
      if m == n && Movable(t, n) && OwnerMatches(t[n], expected) then Some(Some(now + secs * SECOND)) else None
    case RegisterOp(m, g) =>
      if m == n && n !in t && !StartsWith(n, WORKER_PREFIX) && g.kind != WORKER_KIND then Some(g.nextRunAt) else None
    case TriggerOp(m) => if m == n && Open(t, n) && t[n].lockedBy.None? then Some(Some(now)) else None
    case StopOp(m) => if m == n && IsJob(t, n) then Some(None) else None
    case _ => None
  }

  /** The operations that may move a free job's next run, or take, hold or remove it at any time. */
  predicate Moves(op: Op, n: string) {
    match op
    case ClaimOp(req) => req.name == Some(n)
    case CompleteOp(m, _) => m == n
    case HoldOp(m, _, _, _, _) => m == n
    case DeregisterOp(m, _, _) => m == n
    case TriggerOp(m) => m == n
    case DeferOp(m, _, _) => m == n
    case PayloadOp(_, _, _) => false
    case RegisterOp(_, _) => false
    case StopOp(m) => m == n
    case DirectOp(d) => (d.Retire? && d.name == n) || (d.Prune? && StartsWith(n, d.prefix)) || (d.Cadence? && d.name == n)
  }

  /** A free job that is due from `wake` on. */
  predicate Waits(t: Table, n: string, wake: Option<Time>) {
    Open(t, n) && t[n].lockedBy.None? && t[n].nextRunAt == wake
  }

  /** An unnamed claim takes the job, no sooner than it is due. */
  ghost predicate Takes(t: Table, e: JobSafety.Event, n: string, wake: Option<Time>) {
    && e.op.ClaimOp? && e.op.req.name.None? && Claim(t, e.raws, e.now, e.op.req).1 == Granted(n)
    && wake.Some? && e.now >= wake.value
  }

  lemma ReleaseWaits(t: Table, raws: set<string>, now: Time, op: Op, n: string)
    requires Released(t, raws, now, op, n).Some?
    ensures Waits(Apply(t, raws, now, op), n, Released(t, raws, now, op, n).value)
  {
  }

  lemma ClaimWaitsOn(t: Table, e: JobSafety.Event, n: string, wake: Option<Time>)
    requires Waits(t, n, wake) && !Moves(e.op, n) && e.op.ClaimOp?
    ensures Waits(Apply(t, e.raws, e.now, e.op), n, wake) || Takes(t, e, n, wake)
  {
    JobSafety.ClaimFrame(t, e.raws, e.now, e.op.req);
  }

  lemma DirectWaitsOn(t: Table, d: Direct, n: string, wake: Option<Time>)
    requires Waits(t, n, wake) && !Moves(DirectOp(d), n)
    ensures Waits(WriteDirect(t, d), n, wake)
  {
  }

  lemma WaitsOn(t: Table, e: JobSafety.Event, n: string, wake: Option<Time>)
    requires Waits(t, n, wake) && !Moves(e.op, n)
    ensures Waits(Apply(t, e.raws, e.now, e.op), n, wake) || Takes(t, e, n, wake)
  {
    match e.op
    case ClaimOp(_) => ClaimWaitsOn(t, e, n, wake);
    case DirectOp(d) => DirectWaitsOn(t, d, n, wake);
    case CompleteOp(_, _) =>
    case HoldOp(_, _, _, _, _) =>
    case DeregisterOp(_, _, _) =>
    case TriggerOp(_) =>
    case DeferOp(_, _, _) =>
    case PayloadOp(_, _, _) =>
    case RegisterOp(_, _) =>
    case StopOp(_) =>
  }

  /** When a job that waits is due for a claim: from its time on, if the claim is for such jobs. */
  lemma WaitingIsDueExactly(t: Table, n: string, wake: Option<Time>, now: Time, req: ClaimRequest)
    requires Waits(t, n, wake)
    ensures Due(t, now, req, n) <==>
              && wake.Some? && now >= wake.value && n !in req.excludeNames
              && (req.kind.None? || t[n].kind == req.kind.value)
              && (req.kinds.None? || req.kinds.value == [] || t[n].kind in req.kinds.value)
  {
  }

  /** Over every run, a job that a completion, deferral, registration, trigger or stop leaves free
      waits until exactly the time that call has set: until somebody moves it, it is neither taken
      before that time nor lost, whatever else is called or written. */
  lemma {:induction false} WaitsUntilTaken(ts: seq<Table>, es: seq<JobSafety.Event>, n: string, i: nat, j: nat)
    requires JobSafety.IsRun(ts, es) && i < j < |ts|
    requires Released(ts[i], es[i].raws, es[i].now, es[i].op, n).Some?
    requires forall k :: i < k < j ==> !Moves(es[k].op, n)
    ensures var wake := Released(ts[i], es[i].raws, es[i].now, es[i].op, n).value;
            Waits(ts[j], n, wake) || exists k :: i < k < j && Takes(ts[k], es[k], n, wake)
    decreases j
  {
    var wake := Released(ts[i], es[i].raws, es[i].now, es[i].op, n).value;
    if j == i + 1 {
      ReleaseWaits(ts[i], es[i].raws, es[i].now, es[i].op, n);
    } else {
      WaitsUntilTaken(ts, es, n, i, j - 1);
      if Waits(ts[j - 1], n, wake) {
        WaitsOn(ts[j - 1], es[j - 1], n, wake);
      }
    }
  }
}
