/** The refill protocol of the two-worker drainer fleet, over every interleaving.

    Reconcilers read the intents, then the live workflows, then the statuses of the intended
    workflows, and reserve under the pool lock; whatever they read may be stale by then. The
    ids a reservation returns are durable and may be enqueued at any later time, any number of
    times, by anybody; a reconciler may also crash at any point. The environment enqueues by
    create-if-absent, keeps every workflow row, and never changes a terminal status. */
module DrainerFleet {
  import opened Text
  import opened Sums
  import opened RoutineTable
  import opened DrainerIntents
  import JobSafety

  /** `loopDone` records that the workflow has left its job loop. */
  datatype Workflow = Workflow(status: string, loopDone: bool)
  type Flows = map<string, Workflow>

  datatype Reader = Reader(
    completing: Option<string>,
    intents: Option<Intents>,
    live: Option<set<string>>,
    statuses: Option<map<string, Option<string>>>)

  datatype Fleet = Fleet(table: Table, flows: Flows, readers: map<nat, Reader>, outbox: set<string>)

  predicate Unfinished(flows: Flows, w: string) {
    w in flows && !IsTerminal(flows[w].status) && !flows[w].loopDone
  }

  predicate Done(flows: Flows, w: string) {
    w in flows && (IsTerminal(flows[w].status) || flows[w].loopDone)
  }

  /** The workflows still in an unfinished job loop. */
  function InLoop(flows: Flows): set<string> {
    set w | w in flows && Unfinished(flows, w)
  }

  // ----------------------------------------------------------------------- steps

  datatype Step =
    | Begin(reader: nat, completing: Option<string>)
    | ReadIntents(reader: nat)
    | ReadLive(reader: nat)
    | ReadStatuses(reader: nat)
    | ReserveNow(reader: nat)
    | Crash(reader: nat)
    | Enqueue(id: string)
    | Progress(id: string, status: string)
    | LoopEnds(id: string)
    | JobWrites(table: Table)

  /** Every slot name that exists belongs to the fleet. */
  ghost predicate SlotsOwned(t: Table) {
    forall n :: n in t && IsSlot(n) ==> t[n].kind == WORKER_KIND
  }

  /** A write that leaves the intent rows alone. */
  ghost predicate SameIntents(t: Table, t': Table) {
    && (forall n :: n in t && t[n].kind == WORKER_KIND ==> n in t' && t'[n] == t[n])
    && (forall n :: n in t' && t'[n].kind == WORKER_KIND ==> n in t && t[n] == t'[n])
    && (SlotsOwned(t) ==> SlotsOwned(t'))
  }

  ghost predicate Enabled(f: Fleet, step: Step) {
    match step
    case Begin(c, completing) => completing.Some? ==> completing.value in f.flows && f.flows[completing.value].loopDone
    case ReadIntents(c) => c in f.readers && AllValid(f.table)
    case ReadLive(c) => c in f.readers && f.readers[c].intents.Some?
    case ReadStatuses(c) => c in f.readers && f.readers[c].intents.Some? && f.readers[c].live.Some?
    case ReserveNow(c) => c in f.readers && f.readers[c].intents.Some? && f.readers[c].live.Some? && f.readers[c].statuses.Some?
    case Crash(c) => true
    case Enqueue(w) => w in f.outbox
    case Progress(w, status) => w in f.flows && !IsTerminal(f.flows[w].status) && (IsLive(status) || IsTerminal(status))
    case LoopEnds(w) => w in f.flows
    case JobWrites(t) => SameIntents(f.table, t)
  }

  function LiveIds(flows: Flows): set<string> {
    set w | w in flows && IsLive(flows[w].status)
  }

  function StatusOf(flows: Flows, w: string): Option<string> {
    if w in flows then Some(flows[w].status) else None
  }

  function View(r: Reader): Snapshot
    requires r.intents.Some? && r.live.Some? && r.statuses.Some?
  {
    Snapshot(r.intents.value, r.statuses.value, r.live.value, r.completing)
  }

  ghost function After(f: Fleet, step: Step): Fleet
    requires Enabled(f, step)
  {
    match step
    case Begin(c, completing) => f.(readers := f.readers[c := Reader(completing, None, None, None)])
    case ReadIntents(c) => f.(readers := f.readers[c := Reader(f.readers[c].completing, Some(Read(f.table)), None, None)])
    case ReadLive(c) => f.(readers := f.readers[c := f.readers[c].(live := Some(LiveIds(f.flows)))])
    case ReadStatuses(c) =>
      var ids := Ids(f.readers[c].intents.value);
      f.(readers := f.readers[c := f.readers[c].(statuses := Some(map w | w in ids :: StatusOf(f.flows, w)))])
    case ReserveNow(c) =>
      var (t, r) := Reserve(f.table, View(f.readers[c]));
      f.(table := t, readers := f.readers - {c}, outbox := f.outbox + if r.Reserved? then set w | w in r.ids else {})
    case Crash(c) => f.(readers := f.readers - {c})
    case Enqueue(w) => if w in f.flows then f else f.(flows := f.flows[w := Workflow("ENQUEUED", false)])
    case Progress(w, status) => f.(flows := f.flows[w := f.flows[w].(status := status)])
    case LoopEnds(w) => f.(flows := f.flows[w := f.flows[w].(loopDone := true)])
    case JobWrites(t) => f.(table := t)
  }

  ghost predicate IsRun(fs: seq<Fleet>, steps: seq<Step>) {
    && |fs| == |steps| + 1
    && forall i {:trigger steps[i]} :: 0 <= i < |steps| ==> Enabled(fs[i], steps[i]) && fs[i + 1] == After(fs[i], steps[i])
  }

  /** Before the first refill: no intents, no reconcilers, and any workflows of older kinds. */
  ghost predicate Initial(f: Fleet) {
    && AllValid(f.table) && Read(f.table) == map[] && SlotsOwned(f.table)
    && f.readers == map[] && f.outbox == {}
    && forall w :: w in f.flows ==> IsLive(f.flows[w].status) || IsTerminal(f.flows[w].status)
  }

  // ------------------------------------------------------------------- invariant

  /** Workflows in a job loop, and intents whose workflow can still be created. */
  ghost function Busy(flows: Flows, cur: Intents): set<string> {
    InLoop(flows) + set w | w in Ids(cur) && w !in flows
  }

  ghost predicate PastDone(flows: Flows, cur: Intents) {
    forall slot, g: nat {:trigger WorkflowId(slot, g)} ::
      slot in cur && 0 < g < cur[slot].generation ==> Done(flows, WorkflowId(slot, g))
  }

  /** `w` was issued to a slot of `cur`, in this generation or an earlier one. */
  ghost predicate Issued(cur: Intents, w: string) {
    exists slot, g: nat :: slot in cur && 0 < g <= cur[slot].generation && w == WorkflowId(slot, g)
  }

  ghost predicate ReaderSound(flows: Flows, cur: Intents, r: Reader) {
    && (r.completing.Some? ==> r.completing.value in flows && flows[r.completing.value].loopDone)
    && (r.live.Some? ==> forall w :: Unfinished(flows, w) ==> w in r.live.value || w in Ids(cur))
    && (r.statuses.Some? ==> forall w :: w in r.statuses.value && r.statuses.value[w].Some? && IsTerminal(r.statuses.value[w].value) ==>
          w in flows && IsTerminal(flows[w].status))
  }

  ghost predicate Sound(flows: Flows, cur: Intents, readers: map<nat, Reader>, outbox: set<string>, bound: nat) {
    && (forall w :: w in flows ==> IsLive(flows[w].status) || IsTerminal(flows[w].status))
    && PastDone(flows, cur)
    && (forall w :: w in outbox ==> Issued(cur, w))
    && (forall c :: c in readers ==> ReaderSound(flows, cur, readers[c]))
    && |Busy(flows, cur)| <= bound
  }

  ghost predicate Inv(f: Fleet, bound: nat) {
    && AllValid(f.table) && SlotsOwned(f.table)
    && Sound(f.flows, Read(f.table), f.readers, f.outbox, bound)
  }

  // ------------------------------------------------------------ what Reserve does

  lemma SameRead(t: Table, t': Table)
    requires AllValid(t) && SameIntents(t, t')
    ensures AllValid(t') && Read(t') == Read(t)
  {
  }

  ghost function NextIntent(cur: Intents, n: string): Intent
    requires Tracked(cur)
  {
    Intent(WorkflowId(n, NextGeneration(cur, n)), NextGeneration(cur, n))
  }

  /** The intents after the slots `names` moved to their next generation. */
  ghost function Advanced(cur: Intents, names: seq<string>): Intents
    requires Tracked(cur)
  {
    cur + map n | n in names :: NextIntent(cur, n)
  }

  lemma ReadUpdated(t: Table, name: string, r: Row)
    requires AllValid(t) && SlotsOwned(t)
    requires r.kind == WORKER_KIND && ValidIntent(name, r.payload)
    ensures AllValid(t[name := r]) && SlotsOwned(t[name := r])
    ensures Read(t[name := r]) == Read(t)[name := IntentOf(name, r.payload)]
  {
  }

  lemma UpsertReads(t: Table, name: string, g: nat)
    requires AllValid(t) && SlotsOwned(t) && IsSlot(name) && g >= 1
    ensures var t' := Upsert(t, name, Payload(name, g));
            && t'.Some? && AllValid(t'.value) && SlotsOwned(t'.value)
            && Read(t'.value) == Read(t)[name := Intent(WorkflowId(name, g), g)]
  {
    var p := Payload(name, g);
    WrittenIntentIsValid(name, g);
    ReadUpdated(t, name, if name in t then t[name].(payload := Some(p)) else IntentRow(p));
  }

  lemma AdvancedLast(cur: Intents, names: seq<string>, k: nat)
    requires Tracked(cur) && k < |names|
    ensures Advanced(cur, names[..k + 1]) == Advanced(cur, names[..k])[names[k] := NextIntent(cur, names[k])]
  {
    assert names[..k + 1] == names[..k] + [names[k]];
  }

  ghost predicate ReadsAs(t: Option<Table>, cur: Intents) {
    t.Some? && AllValid(t.value) && SlotsOwned(t.value) && Read(t.value) == cur
  }

  lemma UpsertNext(t: Table, adv: Intents, cur: Intents, n: string)
    requires ReadsAs(Some(t), adv) && Tracked(cur) && IsSlot(n)
    ensures ReadsAs(Upsert(t, n, Payload(n, NextGeneration(cur, n))), adv[n := NextIntent(cur, n)])
  {
    UpsertReads(t, n, NextGeneration(cur, n));
  }

  lemma UpsertStep(t: Table, mid: Table, adv: Intents, cur: Intents, names: seq<string>, k: nat)
    requires Tracked(cur) && k < |names| && IsSlot(names[k])
    requires UpsertFirst(t, cur, names, k) == Some(mid) && ReadsAs(Some(mid), adv)
    ensures ReadsAs(UpsertFirst(t, cur, names, k + 1), adv[names[k] := NextIntent(cur, names[k])])
  {
    UpsertNext(mid, adv, cur, names[k]);
  }

  lemma {:induction false} UpsertsRead(t: Table, cur: Intents, names: seq<string>, k: nat)
    requires ReadsAs(Some(t), cur) && k <= |names|
    requires forall i :: 0 <= i < |names| ==> IsSlot(names[i])
    ensures ReadsAs(UpsertFirst(t, cur, names, k), Advanced(cur, names[..k]))
  {
    if k == 0 {
      assert Advanced(cur, names[..0]) == cur;
    } else {
      UpsertsRead(t, cur, names, k - 1);
      var mid, adv := UpsertFirst(t, cur, names, k - 1).value, Advanced(cur, names[..k - 1]);
      AdvancedLast(cur, names, k - 1);
      UpsertStep(t, mid, adv, cur, names, k - 1);
    }
  }

  lemma SlotsUnfolded(cur: Intents, s: Snapshot)
    requires Consistent(Ids(cur), s)
    ensures FreeSlots(cur, s, WORKER_COUNT) ==
              (if Free(cur, s, SlotName(0)) then [SlotName(0)] else []) + (if Free(cur, s, SlotName(1)) then [SlotName(1)] else [])
    ensures BusySlots(cur, s, WORKER_COUNT) ==
              (if Free(cur, s, SlotName(0)) then 0 else 1) + (if Free(cur, s, SlotName(1)) then 0 else 1)
  {
    assert FreeSlots(cur, s, 1) == if Free(cur, s, SlotName(0)) then [SlotName(0)] else [];
    assert BusySlots(cur, s, 1) == if Free(cur, s, SlotName(0)) then 0 else 1;
  }

  lemma RefilledAreFree(cur: Intents, s: Snapshot, n: string)
    requires Consistent(Ids(cur), s) && n in Refilled(cur, s)
    ensures IsSlot(n) && Free(cur, s, n)
  {
    SlotsUnfolded(cur, s);
  }

  lemma RefillReads(t: Table, s: Snapshot)
    requires AllValid(t) && SlotsOwned(t) && Consistent(Ids(Read(t)), s)
    ensures var names := Refilled(Read(t), s);
            ReadsAs(UpsertFirst(t, Read(t), names, |names|), Advanced(Read(t), names))
  {
    var cur, names := Read(t), Refilled(Read(t), s);
    forall n | n in names ensures IsSlot(n) {
      RefilledAreFree(cur, s, n);
    }
    UpsertsRead(t, cur, names, |names|);
    assert names[..|names|] == names;
  }

  /** A reservation keeps the intents valid and advances exactly the refilled, free slots; any
      other answer changes nothing. */
  lemma ReserveAdvances(t: Table, s: Snapshot)
    requires AllValid(t) && SlotsOwned(t)
    ensures var (t', r) := Reserve(t, s);
            && (r.Reserved? <==> Read(t) == s.intents && Consistent(Ids(Read(t)), s))
            && (!r.Reserved? ==> t' == t)
            && (r.Reserved? ==>
                  && AllValid(t') && SlotsOwned(t')
                  && Read(t') == Advanced(Read(t), Refilled(Read(t), s))
                  && forall n :: n in Refilled(Read(t), s) ==> IsSlot(n) && Free(Read(t), s, n))
  {
    var cur := Read(t);
    if cur == s.intents && Consistent(Ids(cur), s) {
      RefillReads(t, s);
      forall n | n in Refilled(cur, s) ensures IsSlot(n) && Free(cur, s, n) {
        RefilledAreFree(cur, s, n);
      }
    }
  }

  // --------------------------------------------------------------- counting the fleet

  /** What a reconciler's observations still guarantee when it reserves. */
  ghost predicate SnapshotSound(flows: Flows, cur: Intents, s: Snapshot) {
    && Tracked(cur) && Consistent(Ids(cur), s)
    && PastDone(flows, cur)
    && (s.completing.Some? ==> Done(flows, s.completing.value))
    && (forall w :: Unfinished(flows, w) ==> w in s.live || w in Ids(cur))
    && (forall w :: w in s.statuses && s.statuses[w].Some? && IsTerminal(s.statuses[w].value) ==> Done(flows, w))
  }

  lemma SupersededIsDone(flows: Flows, cur: Intents, w: string)
    requires Tracked(cur) && PastDone(flows, cur) && Superseded(cur, w)
    ensures Done(flows, w)
  {
    SupersededExactly(cur, w);
  }

  lemma FreeIsDone(flows: Flows, cur: Intents, s: Snapshot, n: string)
    requires SnapshotSound(flows, cur, s) && n in cur && Free(cur, s, n)
    ensures Done(flows, cur[n].workflowId)
  {
  }

  ghost function SlotId(cur: Intents, s: Snapshot, n: string): set<string>
    requires Consistent(Ids(cur), s)
  {
    if Free(cur, s, n) then {} else {cur[n].workflowId}
  }

  lemma BusyHasPlace(flows: Flows, cur: Intents, s: Snapshot, w: string)
    requires SnapshotSound(flows, cur, s) && w in Busy(flows, cur)
    ensures w in Untracked(cur, s) || exists n :: n in cur && cur[n].workflowId == w && !Free(cur, s, n)
  {
    if w in Ids(cur) {
      var n :| n in cur && cur[n].workflowId == w;
      if Free(cur, s, n) { FreeIsDone(flows, cur, s, n); }
    } else if Superseded(cur, w) {
      SupersededIsDone(flows, cur, w);
    }
  }

  /** Everything busy is either untracked and seen live, or the current id of a slot that
      the reservation counts as occupied. */
  lemma BusyIsCounted(flows: Flows, cur: Intents, s: Snapshot)
    requires SnapshotSound(flows, cur, s)
    ensures |Busy(flows, cur)| <= |Untracked(cur, s)| + BusySlots(cur, s, WORKER_COUNT)
  {
    var a, b := SlotId(cur, s, SlotName(0)), SlotId(cur, s, SlotName(1));
    forall w | w in Busy(flows, cur) ensures w in Untracked(cur, s) + a + b {
      BusyHasPlace(flows, cur, s, w);
    }
    Within(Busy(flows, cur), Untracked(cur, s), a, b);
    SlotsUnfolded(cur, s);
  }

  lemma Within(x: set<string>, u: set<string>, a: set<string>, b: set<string>)
    requires x <= u + a + b
    ensures |x| <= |u| + |a| + |b|
  {
    SubsetSize(x, u + a + b);
    assert u + a + b == u + (a + b);
    UnionSize(a, b);
    UnionSize(u, a + b);
  }

  lemma UnionSize(a: set<string>, b: set<string>)
    ensures |a + b| <= |a| + |b|
  {
    assert a + b == a + (b - a);
    SubsetSize(b - a, b);
  }

  /** The new ids of the first `k` slots of `names`. */
  ghost function NewIdSet(cur: Intents, names: seq<string>, k: nat): (r: set<string>)
    requires Tracked(cur) && k <= |names|
    ensures |r| <= k
    ensures forall i :: 0 <= i < k ==> NextIntent(cur, names[i]).workflowId in r
  {
    if k == 0 then {} else NewIdSet(cur, names, k - 1) + {NextIntent(cur, names[k - 1]).workflowId}
  }

  lemma BusyAfter(flows: Flows, cur: Intents, names: seq<string>)
    requires Tracked(cur)
    ensures Busy(flows, Advanced(cur, names)) <= Busy(flows, cur) + NewIdSet(cur, names, |names|)
  {
    var cur', added := Advanced(cur, names), NewIdSet(cur, names, |names|);
    forall w | w in Ids(cur') && w !in flows ensures w in Busy(flows, cur) + added {
      var n :| n in cur' && cur'[n].workflowId == w;
      if n in names {
        var i :| 0 <= i < |names| && names[i] == n;
      } else {
        assert w in Ids(cur);
      }
    }
  }

  /** A reservation never takes the fleet above two, or above what it already was. */
  lemma RefillStaysBounded(flows: Flows, cur: Intents, s: Snapshot, bound: nat)
    requires SnapshotSound(flows, cur, s)
    requires WORKER_COUNT <= bound && |Busy(flows, cur)| <= bound
    ensures |Busy(flows, Advanced(cur, Refilled(cur, s)))| <= bound
  {
    var names := Refilled(cur, s);
    BusyAfter(flows, cur, names);
    BusyIsCounted(flows, cur, s);
    Within(Busy(flows, Advanced(cur, names)), Busy(flows, cur), NewIdSet(cur, names, |names|), {});
  }

  lemma PastStaysDone(flows: Flows, cur: Intents, s: Snapshot)
    requires SnapshotSound(flows, cur, s)
    requires forall n :: n in Refilled(cur, s) ==> Free(cur, s, n)
    ensures PastDone(flows, Advanced(cur, Refilled(cur, s)))
  {
    var names := Refilled(cur, s);
    var cur' := Advanced(cur, names);
    forall slot, g: nat | slot in cur' && 0 < g < cur'[slot].generation ensures Done(flows, WorkflowId(slot, g)) {
      if slot in cur && g == cur[slot].generation { FreeIsDone(flows, cur, s, slot); }
    }
  }

  // -------------------------------------------------------------------- preservation

  lemma IssuedStays(cur: Intents, names: seq<string>, w: string)
    requires Tracked(cur) && Issued(cur, w)
    ensures Issued(Advanced(cur, names), w)
  {
    var slot, g: nat :| slot in cur && 0 < g <= cur[slot].generation && w == WorkflowId(slot, g);
    assert slot in Advanced(cur, names) && g <= Advanced(cur, names)[slot].generation;
  }

  lemma RetriesAreCurrent(cur: Intents, s: Snapshot, k: nat, w: string)
    requires Tracked(cur) && Consistent(Ids(cur), s) && w in Retries(cur, s, k)
    ensures w in Ids(cur)
  {
    if w !in Retries(cur, s, k - 1) { assert w == cur[SlotName(k - 1)].workflowId; }
  }

  lemma CurrentIsIssued(cur: Intents, w: string)
    requires Tracked(cur) && w in Ids(cur)
    ensures Issued(cur, w)
  {
    var n :| n in cur && cur[n].workflowId == w;
    var g: nat := cur[n].generation;
    assert w == WorkflowId(n, g);
  }

  lemma ReturnedAreIssued(cur: Intents, s: Snapshot, w: string)
    requires Tracked(cur) && Consistent(Ids(cur), s)
    requires w in Retries(cur, s, WORKER_COUNT) + NewIds(cur, Refilled(cur, s))
    ensures Issued(Advanced(cur, Refilled(cur, s)), w)
  {
    var names := Refilled(cur, s);
    if w in Retries(cur, s, WORKER_COUNT) {
      RetriesAreCurrent(cur, s, WORKER_COUNT, w);
      CurrentIsIssued(cur, w);
      IssuedStays(cur, names, w);
    } else {
      var i :| 0 <= i < |names| && w == NewIds(cur, names)[i];
      var n := names[i];
      var g: nat := NextGeneration(cur, n);
      assert n in Advanced(cur, names) && Advanced(cur, names)[n].generation == g && w == WorkflowId(n, g);
    }
  }

  lemma ReaderAfterRefill(flows: Flows, cur: Intents, s: Snapshot, r: Reader)
    requires SnapshotSound(flows, cur, s) && ReaderSound(flows, cur, r)
    requires forall n :: n in Refilled(cur, s) ==> Free(cur, s, n)
    ensures ReaderSound(flows, Advanced(cur, Refilled(cur, s)), r)
  {
    var cur' := Advanced(cur, Refilled(cur, s));
    forall w | Unfinished(flows, w) && w in Ids(cur) ensures w in Ids(cur') {
      var n :| n in cur && cur[n].workflowId == w;
      if n in Refilled(cur, s) { FreeIsDone(flows, cur, s, n); }
      assert cur'[n].workflowId == w;
    }
  }

  lemma RefillKeeps(flows: Flows, cur: Intents, readers: map<nat, Reader>, outbox: set<string>, s: Snapshot, bound: nat)
    requires Sound(flows, cur, readers, outbox, bound) && WORKER_COUNT <= bound && SnapshotSound(flows, cur, s)
    requires forall n :: n in Refilled(cur, s) ==> Free(cur, s, n)
    ensures var ids := Retries(cur, s, WORKER_COUNT) + NewIds(cur, Refilled(cur, s));
            Sound(flows, Advanced(cur, Refilled(cur, s)), readers, outbox + (set w | w in ids), bound)
  {
    var cur' := Advanced(cur, Refilled(cur, s));
    PastStaysDone(flows, cur, s);
    RefillStaysBounded(flows, cur, s, bound);
    forall c | c in readers ensures ReaderSound(flows, cur', readers[c]) {
      ReaderAfterRefill(flows, cur, s, readers[c]);
    }
    forall w | w in outbox ensures Issued(cur', w) {
      IssuedStays(cur, Refilled(cur, s), w);
    }
    forall w | w in Retries(cur, s, WORKER_COUNT) + NewIds(cur, Refilled(cur, s)) ensures Issued(cur', w) {
      ReturnedAreIssued(cur, s, w);
    }
  }

  lemma ViewIsSound(flows: Flows, cur: Intents, r: Reader)
    requires PastDone(flows, cur) && Tracked(cur) && ReaderSound(flows, cur, r)
    requires r.intents.Some? && r.live.Some? && r.statuses.Some? && Consistent(Ids(cur), View(r))
    ensures SnapshotSound(flows, cur, View(r))
  {
  }

  lemma ReserveKeeps(f: Fleet, c: nat, bound: nat)
    requires Inv(f, bound) && WORKER_COUNT <= bound && Enabled(f, ReserveNow(c))
    ensures Inv(After(f, ReserveNow(c)), bound)
  {
    var s := View(f.readers[c]);
    ReserveAdvances(f.table, s);
    if Reserve(f.table, s).1.Reserved? {
      ViewIsSound(f.flows, Read(f.table), f.readers[c]);
      RefillKeeps(f.flows, Read(f.table), f.readers, f.outbox, s, bound);
    }
  }

  /** How workflows may change: rows stay, and what is done stays done. */
  ghost predicate Grows(flows: Flows, flows': Flows) {
    forall w :: w in flows ==>
      && w in flows'
      && (IsTerminal(flows[w].status) ==> IsTerminal(flows'[w].status))
      && (flows[w].loopDone ==> flows'[w].loopDone)
  }

  lemma GrowthKeepsReaders(flows: Flows, flows': Flows, cur: Intents, r: Reader)
    requires Grows(flows, flows') && ReaderSound(flows, cur, r)
    requires forall w :: w in flows' && w !in flows ==> w in Ids(cur)
    ensures ReaderSound(flows', cur, r)
  {
    forall w | Unfinished(flows', w) && w in flows ensures Unfinished(flows, w) {
    }
  }

  lemma GrowthKeepsBusy(flows: Flows, flows': Flows, cur: Intents)
    requires Grows(flows, flows')
    requires forall w :: w in flows' && w !in flows ==> w in Ids(cur)
    ensures |Busy(flows', cur)| <= |Busy(flows, cur)|
  {
    SubsetSize(Busy(flows', cur), Busy(flows, cur));
  }

  lemma EnqueueIsCurrent(flows: Flows, cur: Intents, w: string)
    requires PastDone(flows, cur) && Tracked(cur) && Issued(cur, w) && w !in flows
    ensures w in Ids(cur)
  {
    var slot, g: nat :| slot in cur && 0 < g <= cur[slot].generation && w == WorkflowId(slot, g);
    assert g < cur[slot].generation ==> Done(flows, w);
  }

  lemma GrowthKeeps(flows: Flows, flows': Flows, cur: Intents, readers: map<nat, Reader>, outbox: set<string>, bound: nat)
    requires Sound(flows, cur, readers, outbox, bound) && Grows(flows, flows')
    requires forall w :: w in flows' && w !in flows ==> w in Ids(cur)
    requires forall w :: w in flows' ==> IsLive(flows'[w].status) || IsTerminal(flows'[w].status)
    ensures Sound(flows', cur, readers, outbox, bound)
  {
    GrowthKeepsBusy(flows, flows', cur);
    forall c | c in readers ensures ReaderSound(flows', cur, readers[c]) {
      GrowthKeepsReaders(flows, flows', cur, readers[c]);
    }
  }

  lemma EnqueueKeeps(flows: Flows, cur: Intents, readers: map<nat, Reader>, outbox: set<string>, w: string, bound: nat)
    requires Sound(flows, cur, readers, outbox, bound) && Tracked(cur) && w in outbox && w !in flows
    ensures Sound(flows[w := Workflow("ENQUEUED", false)], cur, readers, outbox, bound)
  {
    EnqueueIsCurrent(flows, cur, w);
    GrowthKeeps(flows, flows[w := Workflow("ENQUEUED", false)], cur, readers, outbox, bound);
  }

  lemma ChangeKeeps(flows: Flows, cur: Intents, readers: map<nat, Reader>, outbox: set<string>, w: string, flow: Workflow, bound: nat)
    requires Sound(flows, cur, readers, outbox, bound) && w in flows
    requires IsTerminal(flows[w].status) ==> IsTerminal(flow.status)
    requires flows[w].loopDone ==> flow.loopDone
    requires IsLive(flow.status) || IsTerminal(flow.status)
    ensures Sound(flows[w := flow], cur, readers, outbox, bound)
  {
    GrowthKeeps(flows, flows[w := flow], cur, readers, outbox, bound);
  }

  lemma FlowStepKeeps(f: Fleet, step: Step, bound: nat)
    requires Inv(f, bound) && Enabled(f, step)
    requires step.Enqueue? || step.Progress? || step.LoopEnds?
    ensures Inv(After(f, step), bound)
  {
    var cur := Read(f.table);
    if !step.Enqueue? {
      ChangeKeeps(f.flows, cur, f.readers, f.outbox, step.id, After(f, step).flows[step.id], bound);
    } else if step.id !in f.flows {
      EnqueueKeeps(f.flows, cur, f.readers, f.outbox, step.id, bound);
    }
  }

  lemma ReadStepKeeps(f: Fleet, step: Step, bound: nat)
    requires Inv(f, bound) && Enabled(f, step)
    requires step.Begin? || step.ReadIntents? || step.ReadLive? || step.ReadStatuses? || step.Crash?
    ensures Inv(After(f, step), bound)
  {
    var f' := After(f, step);
    forall c | c in f'.readers ensures ReaderSound(f.flows, Read(f.table), f'.readers[c]) {
    }
  }

  lemma StepKeeps(f: Fleet, step: Step, bound: nat)
    requires Inv(f, bound) && WORKER_COUNT <= bound && Enabled(f, step)
    ensures Inv(After(f, step), bound)
  {
    match step
    case ReserveNow(c) => ReserveKeeps(f, c, bound);
    case JobWrites(t) => SameRead(f.table, t);
    case Enqueue(_) => FlowStepKeeps(f, step, bound);
    case Progress(_, _) => FlowStepKeeps(f, step, bound);
    case LoopEnds(_) => FlowStepKeeps(f, step, bound);
    case _ => ReadStepKeeps(f, step, bound);
  }

  lemma {:induction false} RunKeeps(fs: seq<Fleet>, steps: seq<Step>, bound: nat, i: nat)
    requires IsRun(fs, steps) && i < |fs| && WORKER_COUNT <= bound && Inv(fs[0], bound)
    ensures Inv(fs[i], bound)
  {
    if i > 0 {
      RunKeeps(fs, steps, bound, i - 1);
      StepKeeps(fs[i - 1], steps[i - 1], bound);
    }
  }

  /** The fleet bound. In every reachable state at most two workflows are in an unfinished job
      loop; if more than two older cycles were running at the start, their number is never
      exceeded either. */
  lemma AtMostTwoWorkers(fs: seq<Fleet>, steps: seq<Step>, i: nat)
    requires IsRun(fs, steps) && i < |fs| && Initial(fs[0])
    ensures |InLoop(fs[0].flows)| <= 2 ==> |InLoop(fs[i].flows)| <= 2
    ensures |InLoop(fs[i].flows)| <= 2 || |InLoop(fs[i].flows)| <= |InLoop(fs[0].flows)|
  {
    var start := |InLoop(fs[0].flows)|;
    var bound := if start < 2 then 2 else start;
    assert Busy(fs[0].flows, Read(fs[0].table)) == InLoop(fs[0].flows);
    RunKeeps(fs, steps, bound, i);
    SubsetSize(InLoop(fs[i].flows), Busy(fs[i].flows, Read(fs[i].table)));
  }

  // ------------------------------------------------------------------- generations

  ghost predicate Readable(t: Table) {
    AllValid(t) && SlotsOwned(t)
  }

  /** Every slot of `cur` is still there, at the same generation or a later one. */
  ghost predicate Raised(cur: Intents, cur': Intents) {
    forall n :: n in cur ==> n in cur' && cur[n].generation <= cur'[n].generation
  }

  lemma AdvancedRaises(cur: Intents, names: seq<string>)
    requires Tracked(cur)
    ensures Raised(cur, Advanced(cur, names))
  {
  }

  lemma StepRaises(f: Fleet, step: Step)
    requires Readable(f.table) && Enabled(f, step)
    ensures Readable(After(f, step).table) && Raised(Read(f.table), Read(After(f, step).table))
  {
    match step
    case ReserveNow(c) =>
      var s := View(f.readers[c]);
      ReserveAdvances(f.table, s);
      if Reserve(f.table, s).1.Reserved? { AdvancedRaises(Read(f.table), Refilled(Read(f.table), s)); }
    case JobWrites(t) => SameRead(f.table, t);
    case _ =>
  }

  /** Over every run, a slot's generation never falls and its intent row never disappears. */
  lemma {:induction false} GenerationsNeverFall(fs: seq<Fleet>, steps: seq<Step>, i: nat, j: nat)
    requires IsRun(fs, steps) && i <= j < |fs| && Readable(fs[0].table)
    ensures Readable(fs[i].table) && Readable(fs[j].table)
    ensures Raised(Read(fs[i].table), Read(fs[j].table))
    decreases j, i
  {
    if i < j {
      GenerationsNeverFall(fs, steps, i, j - 1);
      StepRaises(fs[j - 1], steps[j - 1]);
    } else if 0 < i {
      GenerationsNeverFall(fs, steps, i - 1, i);
    }
  }

  lemma CurrentId(cur: Intents, slot: string, g: nat)
    requires Tracked(cur) && g > 0
    ensures WorkflowId(slot, g) in Ids(cur) <==> slot in cur && cur[slot].generation == g
  {
    if WorkflowId(slot, g) in Ids(cur) {
      var n :| n in cur && cur[n].workflowId == WorkflowId(slot, g);
      IdentityInjective(n, cur[n].generation, slot, g);
    }
  }

  /** Workflow ids are never reissued: once a slot has moved past an id, no later state holds
      that id as an intent again. */
  lemma NeverReissued(fs: seq<Fleet>, steps: seq<Step>, i: nat, j: nat, k: nat, slot: string, g: nat)
    requires IsRun(fs, steps) && i <= j <= k < |fs| && Readable(fs[0].table) && g > 0
    requires AllValid(fs[i].table) && WorkflowId(slot, g) in Ids(Read(fs[i].table))
    requires AllValid(fs[j].table) && WorkflowId(slot, g) !in Ids(Read(fs[j].table))
    ensures AllValid(fs[k].table) && WorkflowId(slot, g) !in Ids(Read(fs[k].table))
  {
    GenerationsNeverFall(fs, steps, i, j);
    GenerationsNeverFall(fs, steps, j, k);
    CurrentId(Read(fs[i].table), slot, g);
    CurrentId(Read(fs[j].table), slot, g);
    CurrentId(Read(fs[k].table), slot, g);
  }

  /** A slot advances only past finished work: in every reachable state each earlier
      generation of each slot has a workflow that is terminal or has left its loop. */
  lemma PastGenerationsAreDone(fs: seq<Fleet>, steps: seq<Step>, i: nat, slot: string, g: nat)
    requires IsRun(fs, steps) && i < |fs| && Initial(fs[0])
    ensures AllValid(fs[i].table)
    ensures slot in Read(fs[i].table) && 0 < g < Read(fs[i].table)[slot].generation ==> Done(fs[i].flows, WorkflowId(slot, g))
  {
    RunKeeps(fs, steps, 2 + |InLoop(fs[0].flows)|, i) by {
      assert Busy(fs[0].flows, Read(fs[0].table)) == InLoop(fs[0].flows);
    }
  }

  // -------------------------------------------------------------- what is handed out

  /** A successful reservation fills the observed fleet up to exactly two. */
  lemma RefillIsComplete(cur: Intents, s: Snapshot)
    requires Consistent(Ids(cur), s)
    ensures var seen := |Untracked(cur, s)| + BusySlots(cur, s, WORKER_COUNT);
            seen + |Refilled(cur, s)| == if seen < 2 then 2 else seen
  {
    SlotsUnfolded(cur, s);
  }

  lemma RetriesUnfolded(cur: Intents, s: Snapshot, w: string)
    requires Tracked(cur) && Consistent(Ids(cur), s)
    ensures w in Retries(cur, s, WORKER_COUNT) <==>
              exists n :: n in cur && !Free(cur, s, n) && cur[n].workflowId == w && s.statuses[w].None?
  {
    var zero, one := SlotName(0), SlotName(1);
    var absent := (n: string) => n in cur && !Free(cur, s, n) && s.statuses[cur[n].workflowId].None?;
    assert Retries(cur, s, 1) == if absent(zero) then [cur[zero].workflowId] else [];
    assert Retries(cur, s, WORKER_COUNT) == Retries(cur, s, 1) + if absent(one) then [cur[one].workflowId] else [];
    if n :| n in cur && !Free(cur, s, n) && cur[n].workflowId == w && s.statuses[w].None? {
      assert n == zero || n == one;
    }
  }

  lemma NewIdsMember(cur: Intents, names: seq<string>, w: string)
    requires Tracked(cur)
    ensures w in NewIds(cur, names) <==> exists n :: n in names && w == WorkflowId(n, NextGeneration(cur, n))
  {
    if n :| n in names && w == WorkflowId(n, NextGeneration(cur, n)) {
      var i :| 0 <= i < |names| && names[i] == n;
      assert NewIds(cur, names)[i] == w;
    }
  }

  /** The caller has to enqueue the current id of slot `n`: the slot just advanced, or nobody
      has created its workflow yet. */
  ghost predicate Owed(cur: Intents, cur': Intents, s: Snapshot, n: string, w: string)
    requires Consistent(Ids(cur), s)
  {
    && n in cur' && cur'[n].workflowId == w
    && (n !in cur || cur'[n].generation > cur[n].generation || (!Free(cur, s, n) && s.statuses[cur[n].workflowId].None?))
  }

  lemma OwedExactly(cur: Intents, s: Snapshot, w: string)
    requires Tracked(cur) && Consistent(Ids(cur), s)
    requires forall n :: n in Refilled(cur, s) ==> Free(cur, s, n)
    ensures var names := Refilled(cur, s);
            w in Retries(cur, s, WORKER_COUNT) + NewIds(cur, names) <==> exists n :: Owed(cur, Advanced(cur, names), s, n, w)
  {
    var names := Refilled(cur, s);
    var cur' := Advanced(cur, names);
    RetriesUnfolded(cur, s, w);
    NewIdsMember(cur, names, w);
    if n :| n in names && w == WorkflowId(n, NextGeneration(cur, n)) {
      assert Owed(cur, cur', s, n, w);
    } else if n :| n in cur && !Free(cur, s, n) && cur[n].workflowId == w && s.statuses[w].None? {
      assert Owed(cur, cur', s, n, w);
    }
  }

  /** The ids handed out are exactly those owed: an id whose workflow is still absent is
      handed out again, unchanged, by every reservation until somebody enqueues it. */
  lemma HandsOutExactly(t: Table, s: Snapshot, w: string)
    requires Readable(t) && Reserve(t, s).1.Reserved?
    ensures var (t', r) := Reserve(t, s);
            AllValid(t') && (w in r.ids <==> exists n :: Owed(Read(t), Read(t'), s, n, w))
  {
    ReserveAdvances(t, s);
    OwedExactly(Read(t), s, w);
  }

  // -------------------------------------------------------------- jobs leave it alone

  lemma RowWriteLeavesIntents(t: Table, n: string, r: Row)
    requires IsJob(t, n) && r.kind == t[n].kind
    ensures SameIntents(t, t[n := r]) && SameIntents(t, t - {n})
  {
  }

  lemma ClaimLeavesIntents(t: Table, raws: set<string>, now: Time, req: ClaimRequest)
    ensures SameIntents(t, Claim(t, raws, now, req).0)
  {
    JobSafety.ClaimFrame(t, raws, now, req);
    var (t', out) := Claim(t, raws, now, req);
    if out.Granted? { RowWriteLeavesIntents(t, out.name, t'[out.name]); }
  }

  lemma RegisterLeavesIntents(t: Table, name: string, g: Registration)
    ensures SameIntents(t, Register(t, name, g).table)
  {
    assert IsSlot(name) ==> StartsWith(name, WORKER_PREFIX);
  }

  lemma DirectLeavesIntents(t: Table, d: Direct)
    ensures SameIntents(t, WriteDirect(t, d))
  {
    if d.Insert? || d.Recur? || d.Renew? {
      RegisterLeavesIntents(t, d.name, d.g);
    }
    if !d.Prune? && IsJob(t, d.name) {
      var t' := WriteDirect(t, d);
      RowWriteLeavesIntents(t, d.name, if d.name in t' then t'[d.name] else t[d.name]);
      assert t' == t || t' == t - {d.name} || t' == t[d.name := t'[d.name]];
    }
  }

  /** No job operation reads, changes, creates or removes an intent row. */
  lemma JobsLeaveIntents(t: Table, raws: set<string>, now: Time, op: Op)
    ensures SameIntents(t, Apply(t, raws, now, op))
  {
    if op.ClaimOp? {
      ClaimLeavesIntents(t, raws, now, op.req);
    } else if op.RegisterOp? {
      RegisterLeavesIntents(t, op.name, op.g);
    } else if op.DirectOp? {
      DirectLeavesIntents(t, op.d);
    } else if IsJob(t, op.name) {
      var t' := Apply(t, raws, now, op);
      RowWriteLeavesIntents(t, op.name, if op.name in t' then t'[op.name] else t[op.name]);
      assert t' == t || t' == t - {op.name} || t' == t[op.name := t'[op.name]];
    }
  }
}
