/** What every run of job operations keeps: leases, ownership and the freshness cooldown. */
module JobSafety {
  import opened Text
  import opened RoutineTable

  // ---------------------------------------------------------------------- runs

  datatype Event = Event(now: Time, raws: set<string>, op: Op)

  /** `ts` are the tables before, between and after the events of a run. */
  ghost predicate IsRun(ts: seq<Table>, es: seq<Event>) {
    && |ts| == |es| + 1
    && forall i {:trigger es[i]} :: 0 <= i < |es| ==> ts[i + 1] == Apply(ts[i], es[i].raws, es[i].now, es[i].op)
  }

  // ------------------------------------------------------------------- the hold

  ghost predicate HeldQuiet(t: Table) {
    forall n :: n in t && Held(t[n]) ==>
      t[n].nextRunAt.None? && t[n].lockedBy.None? && t[n].lockedAt.None?
  }

  /** A completion that writes the reserved status onto a row that gets a next run. */
  predicate SchedulesUnknown(t: Table, raws: set<string>, now: Time, op: Op) {
    && op.CompleteOp?
    && op.c.status == UNKNOWN
    && Movable(t, op.name)
    && OwnerMatches(t[op.name], op.c.expectedHolder)
    && (op.c.deferSecs.Some? || t[op.name].intervalSecs.Some?)
    && (op.c.deregister ==> op.c.preserveFreshness && Fresh(t, raws, op.name))
  }

  lemma HeldUntouched(t: Table, raws: set<string>, now: Time, op: Op, n: string)
    requires n in t && Held(t[n])
    requires op.ClaimOp? || op.CompleteOp? || op.DeregisterOp? || op.TriggerOp? || op.DeferOp? || op.RegisterOp?
    ensures n in Apply(t, raws, now, op) && Apply(t, raws, now, op)[n] == t[n]
  {
    if op.ClaimOp? { ClaimFrame(t, raws, now, op.req); }
  }

  /** Exactly the completions above can leave a held row scheduled. */
  lemma QuietExactly(t: Table, raws: set<string>, now: Time, op: Op)
    requires HeldQuiet(t)
    ensures HeldQuiet(Apply(t, raws, now, op)) <==> !SchedulesUnknown(t, raws, now, op)
  {
    var t' := Apply(t, raws, now, op);
    if op.ClaimOp? {
      ClaimFrame(t, raws, now, op.req);
    } else if SchedulesUnknown(t, raws, now, op) {
      assert op.name in t' && Held(t'[op.name]) && t'[op.name].nextRunAt.Some?;
    }
  }

  // --------------------------------------------------------------------- claims

  /** A lock carries both stamps; every reachable table has this. */
  ghost predicate LocksStamped(t: Table) {
    forall n :: n in t && t[n].lockedBy.Some? ==> LeaseEnd(t[n]).Some?
  }

  lemma ClaimFrame(t: Table, raws: set<string>, now: Time, req: ClaimRequest)
    ensures var (t', out) := Claim(t, raws, now, req);
            && (!out.Granted? ==> t' == t)
            && (out.Granted? ==> Open(t, out.name) && t' == Lock(t, now, req, out.name)
                                 && !Blocked(t[out.name], now)
                                 && Selected(t, raws, now, req) == Some(out.name))
  {
  }

  lemma StampsKept(t: Table, raws: set<string>, now: Time, op: Op)
    requires LocksStamped(t)
    ensures LocksStamped(Apply(t, raws, now, op))
  {
    if op.ClaimOp? { ClaimFrame(t, raws, now, op.req); }
  }

  /** A claim takes a row from another holder only when that holder's lease is not a
      deterministic drainer lease and its time is up; every other row keeps its state. */
  lemma DisplacesOnlyExpired(t: Table, raws: set<string>, now: Time, req: ClaimRequest, n: string)
    requires LocksStamped(t) && n in t
    requires Claim(t, raws, now, req).0[n] != t[n]
    ensures Claim(t, raws, now, req).1 == Granted(n)
    ensures t[n].lockedBy.Some? ==>
              !StartsWith(t[n].lockedBy.value, LEASE_PREFIX)
              && t[n].lockedAt.value + t[n].ttlSecs.value * SECOND <= now
  {
    ClaimFrame(t, raws, now, req);
  }

  // ----------------------------------------------------------- owner-scoped calls

  /** Calls that name `h` as the expected owner. */
  predicate ScopedTo(op: Op, h: string) {
    match op
    case CompleteOp(_, c) => c.expectedHolder == Some(h)
    case HoldOp(_, _, _, owner, since) => owner == Some(h) && since.Some?
    case DeregisterOp(_, _, expected) => expected == Some(h)
    case DeferOp(_, _, expected) => expected == Some(h)
    case PayloadOp(_, _, expected) => expected == Some(h)
    case _ => false
  }

  ghost predicate LockedBy(t: Table, n: string, h: string) {
    n in t && t[n].lockedBy == Some(h)
  }

  lemma OnlyClaimsLock(t: Table, raws: set<string>, now: Time, op: Op, n: string, h: string)
    requires !LockedBy(t, n, h)
    requires op.ClaimOp? ==> op.req.holder != h
    ensures !LockedBy(Apply(t, raws, now, op), n, h)
  {
    if op.ClaimOp? { ClaimFrame(t, raws, now, op.req); }
  }

  lemma {:induction false} StaysOut(ts: seq<Table>, es: seq<Event>, n: string, h: string, i: nat)
    requires IsRun(ts, es) && i < |ts| && !LockedBy(ts[0], n, h)
    requires forall j :: 0 <= j < |es| && es[j].op.ClaimOp? ==> es[j].op.req.holder != h
    ensures !LockedBy(ts[i], n, h)
  {
    if i > 0 {
      StaysOut(ts, es, n, h, i - 1);
      var e := es[i - 1];
      OnlyClaimsLock(ts[i - 1], e.raws, e.now, e.op, n, h);
    }
  }

  /** Once `h` has lost a row, none of its owner-scoped calls on that row does anything,
      whatever the other holders do in between, until `h` claims again. */
  lemma DisplacedOwnerIsInert(ts: seq<Table>, es: seq<Event>, n: string, h: string, i: nat)
    requires IsRun(ts, es) && !LockedBy(ts[0], n, h)
    requires forall j :: 0 <= j < |es| && es[j].op.ClaimOp? ==> es[j].op.req.holder != h
    requires i < |es| && ScopedTo(es[i].op, h) && es[i].op.name == n
    ensures ts[i + 1] == ts[i]
  {
    StaysOut(ts, es, n, h, i);
  }

  /** Operations that may take row `n` from its owner `h`: the calls scoped to `h` or to nobody, the
      sweep of a reservation that the workflow of `h` lost, and the retirement of the row. */
  predicate Yields(op: Op, n: string, h: string) {
    match op
    case CompleteOp(m, c) => m == n && (c.expectedHolder.None? || c.expectedHolder == Some(h))
    case HoldOp(m, _, _, owner, since) => m == n && (owner.None? || since.None? || owner == Some(h))
    case DeregisterOp(m, _, expected) => m == n && (expected.None? || expected == Some(h))
    case DeferOp(m, _, expected) => m == n && (expected.None? || expected == Some(h))
    case StopOp(m) => m == n
    case DirectOp(Sweep(m, w)) => m == n && SweptFrom(h, w)
    case DirectOp(Retire(m)) => m == n
    case _ => false
  }

  ghost predicate Owns(t: Table, n: string, h: string) {
    n in OwnedBy(t, h)
  }

  lemma LeaseSurvivesDirect(t: Table, d: Direct, n: string, h: string)
    requires StartsWith(h, LEASE_PREFIX) && Owns(t, n, h)
    requires !Yields(DirectOp(d), n, h)
    ensures Owns(WriteDirect(t, d), n, h)
  {
  }

  lemma LeaseSurvives(t: Table, raws: set<string>, now: Time, op: Op, n: string, h: string)
    requires StartsWith(h, LEASE_PREFIX) && Owns(t, n, h)
    requires !Yields(op, n, h)
    ensures Owns(Apply(t, raws, now, op), n, h)
  {
    if op.ClaimOp? {
      ClaimFrame(t, raws, now, op.req);
      assert Leased(t[n]);
    } else if op.DirectOp? {
      LeaseSurvivesDirect(t, op.d, n, h);
    }
  }

  /** A deterministic drainer lease never expires: over every run, direct writes included, it is
      kept until its own holder or a call that names no owner gives the row up, the sweep finds
      that its workflow lost the reservation, or the row is retired. */
  lemma {:induction false} DrainerLeaseIsDurable(ts: seq<Table>, es: seq<Event>, n: string, h: string, i: nat)
    requires IsRun(ts, es) && i < |ts|
    requires StartsWith(h, LEASE_PREFIX) && Owns(ts[0], n, h)
    requires forall j :: 0 <= j < |es| ==> !Yields(es[j].op, n, h)
    ensures Owns(ts[i], n, h)
  {
    if i > 0 {
      DrainerLeaseIsDurable(ts, es, n, h, i - 1);
      var e := es[i - 1];
      LeaseSurvives(ts[i - 1], e.raws, e.now, e.op, n, h);
    }
  }

  // ------------------------------------------------------------- one row per holder

  ghost predicate OneEach(t: Table) {
    forall h, n, m :: n in OwnedBy(t, h) && m in OwnedBy(t, h) ==> n == m
  }

  lemma OneEachSize(t: Table, h: string)
    requires OneEach(t)
    ensures |OwnedBy(t, h)| <= 1
  {
    var s := OwnedBy(t, h);
    if s != {} {
      var n :| n in s;
      assert s == {n};
    }
  }

  lemma OwnershipShrinks(t: Table, raws: set<string>, now: Time, op: Op, h: string)
    requires !op.ClaimOp?
    ensures OwnedBy(Apply(t, raws, now, op), h) <= OwnedBy(t, h)
  {
  }

  lemma OneEachStep(t: Table, raws: set<string>, now: Time, op: Op)
    requires OneEach(t)
    requires op.ClaimOp? ==> op.req.recoverHolder
    ensures OneEach(Apply(t, raws, now, op))
  {
    var t' := Apply(t, raws, now, op);
    forall h, n, m | n in OwnedBy(t', h) && m in OwnedBy(t', h) ensures n == m {
      if op.ClaimOp? {
        ClaimFrame(t, raws, now, op.req);
        var out := Claim(t, raws, now, op.req).1;
        if out.Granted? {
          assert OwnedBy(t, op.req.holder) == {};
          if n != out.name { assert n in OwnedBy(t, h); }
          if m != out.name { assert m in OwnedBy(t, h); }
        }
      } else {
        OwnershipShrinks(t, raws, now, op, h);
      }
    }
  }

  /** When every claim recovers its holder first, a holder never owns two rows and no claim is
      ever refused as ambiguous. */
  lemma {:induction false} RecoveringRunsAreUnambiguous(ts: seq<Table>, es: seq<Event>, i: nat)
    requires IsRun(ts, es) && i < |ts| && OneEach(ts[0])
    requires forall j :: 0 <= j < |es| && es[j].op.ClaimOp? ==> es[j].op.req.recoverHolder
    ensures OneEach(ts[i])
    ensures forall raws, now, req :: Claim(ts[i], raws, now, req).1 != Ambiguous
  {
    if i > 0 {
      RecoveringRunsAreUnambiguous(ts, es, i - 1);
      var e := es[i - 1];
      OneEachStep(ts[i - 1], e.raws, e.now, e.op);
    }
    forall raws, now, req ensures Claim(ts[i], raws, now, req).1 != Ambiguous {
      OneEachSize(ts[i], req.holder);
    }
  }

  /** A granted, recovering claim can be replayed at any later time: the same request changes
      nothing, and hands the same row back exactly when the request's filters admit it. */
  lemma ReplayedClaim(t: Table, raws: set<string>, now: Time, req: ClaimRequest, raws': set<string>, now': Time)
    requires req.recoverHolder
    requires Claim(t, raws, now, req).1.Granted?
    ensures var (t', out) := Claim(t, raws, now, req);
            Claim(t', raws', now', req) == (t', if Admits(t'[out.name], req, out.name) then Recovered(out.name) else Refused)
  {
    ClaimFrame(t, raws, now, req);
    var (t', out) := Claim(t, raws, now, req);
    assert OwnedBy(t, req.holder) == {};
    assert OwnedBy(t', req.holder) == {out.name};
  }

  /** The filters of an unnamed claim admit what it picked, unless they are the empty list. */
  lemma UnnamedClaimsReplay(t: Table, raws: set<string>, now: Time, req: ClaimRequest)
    requires req.name.None? && Claim(t, raws, now, req).1.Granted?
    ensures var n := Claim(t, raws, now, req).1.name;
            Admits(t[n], req, n) <==> req.kinds != Some([])
  {
    ClaimFrame(t, raws, now, req);
    var n := Claim(t, raws, now, req).1.name;
    assert n in Candidates(t, now, req);
  }

  /** A named claim takes its row without looking at the kind filters, so it can be replayed exactly
      when the row of that name passes them. */
  lemma NamedClaimsReplay(t: Table, raws: set<string>, now: Time, req: ClaimRequest, raws': set<string>, now': Time)
    requires req.recoverHolder && req.name.Some? && Claim(t, raws, now, req).1.Granted?
    ensures req.name.value in t
    ensures var (after, out) := Claim(t, raws, now, req);
            var kind := t[req.name.value].kind;
            && out == Granted(req.name.value)
            && (Claim(after, raws', now', req) == (after, Recovered(req.name.value)) <==>
                  (req.kind.None? || kind == req.kind.value) && (req.kinds.None? || kind in req.kinds.value))
            && (Claim(after, raws', now', req).1 != Recovered(req.name.value) ==> Claim(after, raws', now', req) == (after, Refused))
  {
    ClaimFrame(t, raws, now, req);
    ReplayedClaim(t, raws, now, req, raws', now');
  }

  // ------------------------------------------------------------ freshness cooldown

  /** A preferring claim picks by turn: outside the cooldown a freshness job beats every
      ordinary one, inside it an ordinary job beats every freshness job. */
  lemma TurnDecides(t: Table, raws: set<string>, now: Time, req: ClaimRequest, n: string, m: string)
    requires req.preferFreshness && Next(t, raws, now, req) == Some(n)
    requires m in Candidates(t, now, req)
    requires Fresh(t, raws, m) != Fresh(t, raws, n)
    ensures Fresh(t, raws, n) <==> !Evidence(t, raws, now - FRESHNESS_COOLDOWN)
  {
    assert IsFirst(t, raws, now, req, Candidates(t, now, req), n);
  }

  /** Within a class the oldest due job goes first, ties by name. */
  lemma FirstInFirstOut(t: Table, raws: set<string>, now: Time, req: ClaimRequest, n: string, m: string)
    requires Next(t, raws, now, req) == Some(n)
    requires m in Candidates(t, now, req) && m != n
    requires req.preferFreshness ==> Fresh(t, raws, m) == Fresh(t, raws, n)
    ensures t[n].nextRunAt.value < t[m].nextRunAt.value
            || (t[n].nextRunAt == t[m].nextRunAt && Before(n, m))
  {
    assert IsFirst(t, raws, now, req, Candidates(t, now, req), n);
  }

  /** Operations that may erase the cooldown evidence a freshness row carries. */
  predicate Erases(t: Table, raws: set<string>, op: Op) {
    match op
    case CompleteOp(n, c) => Fresh(t, raws, n) && c.deregister && !c.preserveFreshness
    case DeregisterOp(n, keep, _) => Fresh(t, raws, n) && !keep
    case DeferOp(n, _, _) => Fresh(t, raws, n)
    case StopOp(n) => Fresh(t, raws, n)
    case PayloadOp(n, _, _) => Fresh(t, raws, n)
    case DirectOp(Prune(prefix, before)) => exists n :: n in t && Fresh(t, raws, n) && Prunable(t, n, prefix, before)
    case DirectOp(d) => !d.Prune? && (d.Sweep? || d.Retire? || d.Renew? || d.Rewrite?) && Fresh(t, raws, d.name)
    case _ => false
  }

  lemma EvidenceKept(t: Table, raws: set<string>, now: Time, op: Op, raws': set<string>, since: Time)
    requires Evidence(t, raws, since) && since <= now && raws <= raws'
    requires !Erases(t, raws', op)
    ensures Evidence(Apply(t, raws', now, op), raws', since)
  {
    var n :| Stamped(t, raws, since, n);
    var t' := Apply(t, raws', now, op);
    if op.ClaimOp? {
      ClaimFrame(t, raws', now, op.req);
    } else if op.DirectOp? {
      DirectKeepsStamp(t, op.d, raws', since, n);
    }
    assert n in t' && Stamped(t', raws', since, n);
  }

  lemma DirectKeepsStamp(t: Table, d: Direct, raws: set<string>, since: Time, n: string)
    requires Stamped(t, raws, since, n) && !Erases(t, raws, DirectOp(d))
    ensures n in WriteDirect(t, d) && Stamped(WriteDirect(t, d), raws, since, n)
  {
  }

  /** Time and the repo-diff inputs only grow, and nothing erases evidence. */
  ghost predicate Orderly(ts: seq<Table>, es: seq<Event>) {
    && IsRun(ts, es)
    && (forall i, j :: 0 <= i < j < |es| ==> es[i].now <= es[j].now && es[i].raws <= es[j].raws)
    && (forall i {:trigger es[i]} :: 0 <= i < |es| ==> !Erases(ts[i], es[i].raws, es[i].op))
  }

  /** Event `e` takes a lease on a freshness row of `t`. */
  ghost predicate FreshGrant(t: Table, e: Event) {
    && e.op.ClaimOp?
    && var out := Claim(t, e.raws, e.now, e.op.req).1;
       out.Granted? && Fresh(t, e.raws, out.name)
  }

  lemma GrantLeavesEvidence(t: Table, raws: set<string>, now: Time, req: ClaimRequest)
    requires Claim(t, raws, now, req).1.Granted? && Fresh(t, raws, Claim(t, raws, now, req).1.name)
    ensures Evidence(Claim(t, raws, now, req).0, raws, now)
  {
    ClaimFrame(t, raws, now, req);
    var (t', out) := Claim(t, raws, now, req);
    assert out.name in t' && Stamped(t', raws, now, out.name);
  }

  lemma NoNewerEvidence(t: Table, raws: set<string>, since: Time, raws': set<string>, since': Time)
    requires raws <= raws' && Evidence(t, raws, since) && !Evidence(t, raws', since')
    ensures since < since'
  {
    var w :| Stamped(t, raws, since, w);
    assert since < since' || Stamped(t, raws', since', w);
  }

  lemma {:induction false} EvidenceLasts(ts: seq<Table>, es: seq<Event>, i: nat, j: nat)
    requires i < j < |ts| && Orderly(ts, es) && FreshGrant(ts[i], es[i])
    ensures Evidence(ts[j], es[j - 1].raws, es[i].now)
  {
    if j == i + 1 {
      EvidenceBegins(ts, es, i);
    } else {
      EvidenceLasts(ts, es, i, j - 1);
      EvidenceStep(ts, es, j - 1, es[i].now);
    }
  }

  lemma EvidenceBegins(ts: seq<Table>, es: seq<Event>, i: nat)
    requires i < |es| && IsRun(ts, es) && FreshGrant(ts[i], es[i])
    ensures Evidence(ts[i + 1], es[i].raws, es[i].now)
  {
    GrantLeavesEvidence(ts[i], es[i].raws, es[i].now, es[i].op.req);
  }

  lemma EvidenceStep(ts: seq<Table>, es: seq<Event>, k: nat, since: Time)
    requires 0 < k < |es| && Orderly(ts, es) && since <= es[k].now && Evidence(ts[k], es[k - 1].raws, since)
    ensures Evidence(ts[k + 1], es[k].raws, since)
  {
    EvidenceKept(ts[k], es[k - 1].raws, es[k].now, es[k].op, es[k].raws, since);
  }

  /** Over every orderly run, when a preferring claim picks a freshness job although an
      ordinary job was eligible, every earlier freshness claim is more than the cooldown ago. */
  lemma FreshnessIsRationed(ts: seq<Table>, es: seq<Event>, i: nat, j: nat, ordinary: string)
    requires i < j < |es| && Orderly(ts, es) && FreshGrant(ts[i], es[i]) && FreshGrant(ts[j], es[j])
    requires es[j].op.req.preferFreshness && es[j].op.req.name.None?
    requires Due(ts[j], es[j].now, es[j].op.req, ordinary) && !Fresh(ts[j], es[j].raws, ordinary)
    ensures es[j].now > es[i].now + FRESHNESS_COOLDOWN
  {
    var t, e := ts[j], es[j];
    EvidenceLasts(ts, es, i, j);
    ClaimFrame(t, e.raws, e.now, e.op.req);
    TurnDecides(t, e.raws, e.now, e.op.req, Claim(t, e.raws, e.now, e.op.req).1.name, ordinary);
    NoNewerEvidence(t, es[j - 1].raws, es[i].now, e.raws, e.now - FRESHNESS_COOLDOWN);
  }

  predicate RanSince(r: Row, since: Time) {
    r.lastRunAt.Some? && r.lastRunAt.value >= since
  }

  predicate LockedSince(r: Row, since: Time) {
    r.lockedAt.Some? && r.lockedAt.value >= since
  }

  /** A row of kind `kg-drain` that would be a freshness row with this payload. */
  predicate FreshWith(t: Table, raws: set<string>, n: string, payload: Option<Json>) {
    n in t && t[n].kind == KG_KIND && (n == SCOUT || (RawId(payload).Some? && RawId(payload).value in raws))
  }

  /** Whether row `n` is evidence since `since` after an operation, said of the table before it. */
  ghost predicate StillStamped(t: Table, raws: set<string>, now: Time, op: Op, since: Time, n: string) {
    match op
    case ClaimOp(req) =>
      if Claim(t, raws, now, req).1 == Granted(n) then Fresh(t, raws, n) && (now >= since || RanSince(t[n], since))
      else Stamped(t, raws, since, n)
    case CompleteOp(m, c) =>
      if m == n && Movable(t, n) && OwnerMatches(t[n], c.expectedHolder)
      then Fresh(t, raws, n) && now >= since && (c.deregister ==> c.preserveFreshness)
      else Stamped(t, raws, since, n)
    case HoldOp(m, _, _, by_, at) =>
      if m == n && IsJob(t, n) && (by_.None? || at.None? || (t[n].lockedBy == by_ && t[n].lockedAt == at))
      then Fresh(t, raws, n) && now >= since
      else Stamped(t, raws, since, n)
    case DeregisterOp(m, keep, expected) =>
      Stamped(t, raws, since, n) && !(m == n && LockClaim(t, n, expected) && Open(t, n) && !keep)
    case DeferOp(m, _, expected) =>
      if m == n && LockClaim(t, n, expected) && Movable(t, n) then Fresh(t, raws, n) && RanSince(t[n], since)
      else Stamped(t, raws, since, n)
    case PayloadOp(m, payload, expected) =>
      if m == n && LockClaim(t, n, expected) && IsJob(t, n) then RestampedBy(t, raws, since, n, Some(payload))
      else Stamped(t, raws, since, n)
    case StopOp(m) =>
      if m == n && IsJob(t, n) then Fresh(t, raws, n) && RanSince(t[n], since) else Stamped(t, raws, since, n)
    case DirectOp(d) => StillStampedDirect(t, raws, d, since, n)
    case _ => Stamped(t, raws, since, n)
  }

  predicate RestampedBy(t: Table, raws: set<string>, since: Time, n: string, payload: Option<Json>) {
    FreshWith(t, raws, n, payload) && (RanSince(t[n], since) || LockedSince(t[n], since))
  }

  predicate StillStampedDirect(t: Table, raws: set<string>, d: Direct, since: Time, n: string) {
    match d
    case Sweep(m, w) =>
      if m == n && Open(t, n) && t[n].lockedBy.Some? && SweptFrom(t[n].lockedBy.value, w)
      then Fresh(t, raws, n) && RanSince(t[n], since)
      else Stamped(t, raws, since, n)
    case Retire(m) => Stamped(t, raws, since, n) && !(m == n && Open(t, n))
    case Prune(prefix, before) => Stamped(t, raws, since, n) && !Prunable(t, n, prefix, before)
    case Renew(m, g) =>
      if m == n && Movable(t, n) && t[n].lockedBy.None? && t[n].nextRunAt.Some? then RestampedBy(t, raws, since, n, g.payload)
      else Stamped(t, raws, since, n)
    case Rewrite(m, payload) =>
      if m == n && IsJob(t, n) then RestampedBy(t, raws, since, n, Some(payload)) else Stamped(t, raws, since, n)
    case _ => Stamped(t, raws, since, n)
  }

  lemma DirectStampExactly(t: Table, raws: set<string>, d: Direct, since: Time, n: string)
    ensures Stamped(WriteDirect(t, d), raws, since, n) <==> StillStampedDirect(t, raws, d, since, n)
  {
  }

  lemma ClaimStampExactly(t: Table, raws: set<string>, now: Time, req: ClaimRequest, since: Time, n: string)
    ensures Stamped(Claim(t, raws, now, req).0, raws, since, n) <==> StillStamped(t, raws, now, ClaimOp(req), since, n)
  {
    ClaimFrame(t, raws, now, req);
  }

  lemma EndingStampExactly(t: Table, raws: set<string>, now: Time, op: Op, since: Time, n: string)
    requires op.CompleteOp? || op.HoldOp?
    ensures Stamped(Apply(t, raws, now, op), raws, since, n) <==> StillStamped(t, raws, now, op, since, n)
  {
  }

  lemma StampExactly(t: Table, raws: set<string>, now: Time, op: Op, since: Time, n: string)
    ensures Stamped(Apply(t, raws, now, op), raws, since, n) <==> StillStamped(t, raws, now, op, since, n)
  {
    match op
    case ClaimOp(req) => ClaimStampExactly(t, raws, now, req, since, n);
    case DirectOp(d) => DirectStampExactly(t, raws, d, since, n);
    case CompleteOp(_, _) => EndingStampExactly(t, raws, now, op, since, n);
    case HoldOp(_, _, _, _, _) => EndingStampExactly(t, raws, now, op, since, n);
    case DeregisterOp(_, _, _) =>
    case TriggerOp(_) =>
    case DeferOp(_, _, _) =>
    case PayloadOp(_, _, _) =>
    case RegisterOp(_, _) =>
    case StopOp(_) =>
  }

  /** For every operation, evidence is left exactly when some row still carries it, which shows in
      the table before the operation and in its arguments. */
  lemma EvidenceExactly(t: Table, raws: set<string>, now: Time, op: Op, since: Time)
    ensures Evidence(Apply(t, raws, now, op), raws, since) <==> exists n :: StillStamped(t, raws, now, op, since, n)
  {
    var t' := Apply(t, raws, now, op);
    if n :| Stamped(t', raws, since, n) {
      StampExactly(t, raws, now, op, since, n);
    }
    if n :| StillStamped(t, raws, now, op, since, n) {
      StampExactly(t, raws, now, op, since, n);
    }
  }

  /** A deferral keeps the evidence exactly when some other row, or this row's own last run,
      still carries it: the lock stamp it clears is lost. */
  lemma DeferKeepsEvidenceExactly(t: Table, raws: set<string>, now: Time, n: string, secs: int, expected: Option<string>, since: Time)
    requires Evidence(t, raws, since)
    ensures Evidence(Defer(t, now, n, secs, expected).table, raws, since) <==>
              || !(LockClaim(t, n, expected) && Movable(t, n))
              || (exists m :: m in t && m != n && Stamped(t, raws, since, m))
              || (Fresh(t, raws, n) && RanSince(t[n], since))
  {
    var op := DeferOp(n, secs, expected);
    EvidenceExactly(t, raws, now, op, since);
    if m :| m in t && m != n && Stamped(t, raws, since, m) {
      assert StillStamped(t, raws, now, op, since, m);
    } else {
      var w :| Stamped(t, raws, since, w);
      assert w == n;
      assert StillStamped(t, raws, now, op, since, n) <==>
        !(LockClaim(t, n, expected) && Movable(t, n)) || (Fresh(t, raws, n) && RanSince(t[n], since));
    }
  }

  // A deferral really does defeat the rationing: one second after the scout was claimed and
  // deferred, a preferring claim takes it again over an ordinary job that was due.

  const SCOUT_ROW := Row(KG_KIND, None, Some(0), None, None, None, None, None, None, None, "scheduler")
  const ORDINARY_ROW := Row("chore", None, Some(0), None, None, None, None, None, None, None, "operator")
  const DEFER_START: Table := map[SCOUT := SCOUT_ROW, "chore" := ORDINARY_ROW]
  const PREFERRING := ClaimRequest("luna-drainer:w:0", 60, None, None, None, true, {}, false)

  lemma DeferDefeatsRationing()
    ensures var t1 := Claim(DEFER_START, {}, 0, PREFERRING);
            var t2 := Defer(t1.0, 0, SCOUT, 0, None).table;
            && t1.1 == Granted(SCOUT)
            && Due(t2, SECOND, PREFERRING, "chore")
            && Claim(t2, {}, SECOND, PREFERRING).1 == Granted(SCOUT)
  {
    var t := DEFER_START;
    ScoutWins(t, 0);
    var t1 := Claim(t, {}, 0, PREFERRING).0;
    var t2 := Defer(t1, 0, SCOUT, 0, None).table;
    assert t2[SCOUT].lockedAt.None? && t2[SCOUT].lastRunAt.None?;
    ScoutWins(t2, SECOND);
  }

  lemma ScoutWins(t: Table, now: Time)
    requires t.Keys == {SCOUT, "chore"} && t["chore"] == ORDINARY_ROW
    requires t[SCOUT].kind == KG_KIND && t[SCOUT].lockedBy.None? && t[SCOUT].lockedAt.None? && t[SCOUT].lastRunAt.None?
    requires t[SCOUT].nextRunAt == Some(0) && t[SCOUT].lastStatus.None?
    requires now >= 0
    ensures Claim(t, {}, now, PREFERRING) == (Lock(t, now, PREFERRING, SCOUT), Granted(SCOUT))
    ensures Due(t, now, PREFERRING, "chore")
  {
    assert Candidates(t, now, PREFERRING) == {SCOUT, "chore"};
    assert Fresh(t, {}, SCOUT) && !Fresh(t, {}, "chore");
    assert !Evidence(t, {}, now - FRESHNESS_COOLDOWN);
    var n := Next(t, {}, now, PREFERRING).value;
    assert n in Candidates(t, now, PREFERRING);
    if n == "chore" {
      TurnDecides(t, {}, now, PREFERRING, n, SCOUT);
    }
  }

  // Two smaller surprises on a table with one ordinary job.

  const CHORE_TABLE: Table := map["chore" := ORDINARY_ROW]

  /** A deferring completion that reports the reserved status leaves a held row scheduled. */
  lemma CompletionCanScheduleHeld()
    ensures var op := CompleteOp("chore", Completion(UNKNOWN, None, None, false, false, Some(60)));
            HeldQuiet(CHORE_TABLE) && !HeldQuiet(Apply(CHORE_TABLE, {}, 0, op))
  {
    var op := CompleteOp("chore", Completion(UNKNOWN, None, None, false, false, Some(60)));
    assert SchedulesUnknown(CHORE_TABLE, {}, 0, op);
    QuietExactly(CHORE_TABLE, {}, 0, op);
  }

  /** A claim with an empty kind list is granted a job and refused it when it is repeated. */
  lemma EmptyKindsAreNotReplayed()
    ensures var req := ClaimRequest("luna-drainer:w:0", 60, None, Some([]), None, false, {}, true);
            var (after, out) := Claim(CHORE_TABLE, {}, 0, req);
            out == Granted("chore") && Claim(after, {}, 0, req) == (after, Refused)
  {
    var req := ClaimRequest("luna-drainer:w:0", 60, None, Some([]), None, false, {}, true);
    assert OwnedBy(CHORE_TABLE, req.holder) == {};
    assert Candidates(CHORE_TABLE, 0, req) == {"chore"};
    assert Next(CHORE_TABLE, {}, 0, req) == Some("chore");
    assert Claim(CHORE_TABLE, {}, 0, req).1 == Granted("chore");
    ReplayedClaim(CHORE_TABLE, {}, 0, req, {}, 0);
    UnnamedClaimsReplay(CHORE_TABLE, {}, 0, req);
  }

  /** A claim by name with another kind's filter is granted the job and refused it when repeated. */
  lemma MismatchedNameIsNotReplayed()
    ensures var req := ClaimRequest("luna-drainer:w:0", 60, Some("other"), None, Some("chore"), false, {}, true);
            var (after, out) := Claim(CHORE_TABLE, {}, 0, req);
            out == Granted("chore") && Claim(after, {}, 0, req) == (after, Refused)
  {
    var req := ClaimRequest("luna-drainer:w:0", 60, Some("other"), None, Some("chore"), false, {}, true);
    assert OwnedBy(CHORE_TABLE, req.holder) == {};
    assert Claim(CHORE_TABLE, {}, 0, req).1 == Granted("chore");
    NamedClaimsReplay(CHORE_TABLE, {}, 0, req, {}, 0);
  }
}
