/** The two durable worker intents and the reservation step that advances them. */
module DrainerIntents {
  import opened Text
  import opened Sums
  import opened RoutineTable

  const WORKER_COUNT: nat := 2

  datatype Intent = Intent(workflowId: string, generation: int)
  type Intents = map<string, Intent>

  function SlotName(i: nat): string {
    WORKER_PREFIX + Decimal(i)
  }

  function WorkflowId(name: string, generation: nat): string {
    name + ":" + Decimal(generation)
  }

  function Payload(name: string, generation: nat): Json {
    JObject(map["generation" := JInt(generation), "workflow_id" := JStr(WorkflowId(name, generation))])
  }

  predicate IsSlot(name: string) {
    name == SlotName(0) || name == SlotName(1)
  }

  /** The reader's check of one intent row. */
  predicate ValidIntent(name: string, payload: Option<Json>) {
    && IsSlot(name)
    && payload.Some? && payload.value.JObject?
    && var fields := payload.value.fields;
       && fields.Keys == {"generation", "workflow_id"}
       && fields["workflow_id"].JStr?
       && fields["generation"].JInt?
       && fields["generation"].n >= 1
       && fields["workflow_id"].s == WorkflowId(name, fields["generation"].n)
  }

  function IntentOf(name: string, payload: Option<Json>): (r: Intent)
    requires ValidIntent(name, payload)
    ensures r.generation >= 1 && r.workflowId == WorkflowId(name, r.generation)
  {
    Intent(payload.value.fields["workflow_id"].s, payload.value.fields["generation"].n)
  }

  predicate AllValid(t: Table) {
    forall n :: n in t && t[n].kind == WORKER_KIND ==> ValidIntent(n, t[n].payload)
  }

  /** `drainer_worker_intents`, given that it does not raise. */
  function Read(t: Table): (r: Intents)
    requires AllValid(t)
    ensures forall n :: n in r ==> IsSlot(n) && r[n].generation >= 1 && r[n].workflowId == WorkflowId(n, r[n].generation)
  {
    map n | n in t && t[n].kind == WORKER_KIND :: IntentOf(n, t[n].payload)
  }

  /** The well-formed intents: what the reader can return. */
  predicate Tracked(cur: Intents) {
    forall n :: n in cur ==> IsSlot(n) && cur[n].generation >= 1 && cur[n].workflowId == WorkflowId(n, cur[n].generation)
  }

  function Ids(cur: Intents): set<string> {
    set n | n in cur :: cur[n].workflowId
  }

  predicate IsTerminal(status: string) {
    status in {"SUCCESS", "ERROR", "CANCELLED", "MAX_RECOVERY_ATTEMPTS_EXCEEDED"}
  }

  predicate IsLive(status: string) {
    status == "PENDING" || status == "ENQUEUED"
  }

  // --------------------------------------------------------------- observations

  /** What one reconciler observed before it asks for a reservation. */
  datatype Snapshot = Snapshot(
    intents: Intents,
    statuses: map<string, Option<string>>,
    live: set<string>,
    completing: Option<string>)

  predicate Consistent(ids: set<string>, s: Snapshot) {
    && (forall w :: w in ids ==> w in s.statuses && !(w in s.live && s.statuses[w].None?))
    && (forall w :: w in s.statuses && s.statuses[w].Some? ==>
          IsTerminal(s.statuses[w].value) || IsLive(s.statuses[w].value))
  }

  /** A live id that its own slot has already advanced past. */
  predicate Superseded(cur: Intents, w: string) {
    var (slot, text) := SplitLastColon(w);
    slot in cur && Canonical(text) && 0 < Value(text) < cur[slot].generation
  }

  function Untracked(cur: Intents, s: Snapshot): set<string> {
    set w | w in s.live && w !in Ids(cur) && !Superseded(cur, w) && s.completing != Some(w)
  }

  /** A slot that may be refilled: never used, or its workflow is terminal or completing. */
  predicate Free(cur: Intents, s: Snapshot, name: string)
    requires Consistent(Ids(cur), s)
  {
    || name !in cur
    || s.completing == Some(cur[name].workflowId)
    || (s.statuses[cur[name].workflowId].Some? && IsTerminal(s.statuses[cur[name].workflowId].value))
  }

  function FreeSlots(cur: Intents, s: Snapshot, k: nat): seq<string>
    requires Consistent(Ids(cur), s)
  {
    if k == 0 then []
    else
      var rest := FreeSlots(cur, s, k - 1);
      if Free(cur, s, SlotName(k - 1)) then rest + [SlotName(k - 1)] else rest
  }

  function BusySlots(cur: Intents, s: Snapshot, k: nat): nat
    requires Consistent(Ids(cur), s)
  {
    if k == 0 then 0 else BusySlots(cur, s, k - 1) + if Free(cur, s, SlotName(k - 1)) then 0 else 1
  }

  /** Intents whose workflow has not been enqueued yet are handed out again. */
  function Retries(cur: Intents, s: Snapshot, k: nat): seq<string>
    requires Consistent(Ids(cur), s)
  {
    if k == 0 then []
    else
      var rest := Retries(cur, s, k - 1);
      var name := SlotName(k - 1);
      if !Free(cur, s, name) && s.statuses[cur[name].workflowId].None? then rest + [cur[name].workflowId] else rest
  }

  // ------------------------------------------------------------------- reserving

  function NextGeneration(cur: Intents, name: string): (g: int)
    requires Tracked(cur)
    ensures g >= 1
  {
    if name in cur then cur[name].generation + 1 else 1
  }

  function IntentRow(payload: Json): Row {
    Row(WORKER_KIND, None, None, None, None, None, None, None, None, Some(payload), "drainer:reconciler")
  }

  /** What a reservation writes, the reader accepts and reads back. */
  lemma WrittenIntentIsValid(name: string, g: nat)
    requires IsSlot(name) && g >= 1
    ensures ValidIntent(name, Some(Payload(name, g)))
    ensures IntentOf(name, Some(Payload(name, g))) == Intent(WorkflowId(name, g), g)
  {
    var fields := Payload(name, g).fields;
    assert "generation" != "workflow_id";
    assert fields.Keys == {"generation", "workflow_id"};
    assert fields["generation"] == JInt(g) && fields["workflow_id"] == JStr(WorkflowId(name, g));
  }

  /** The upsert of one slot row; None when a job row already has that name. */
  function Upsert(t: Table, name: string, payload: Json): Option<Table> {
    if name !in t then Some(t[name := IntentRow(payload)])
    else if t[name].kind == WORKER_KIND then Some(t[name := t[name].(payload := Some(payload))])
    else None
  }

  /** The upserts of the first `k` of `names`, each to its slot's next generation. */
  function UpsertFirst(t: Table, cur: Intents, names: seq<string>, k: nat): Option<Table>
    requires Tracked(cur) && k <= |names|
  {
    if k == 0 then Some(t)
    else
      var rest := UpsertFirst(t, cur, names, k - 1);
      if rest.None? then None
      else Upsert(rest.value, names[k - 1], Payload(names[k - 1], NextGeneration(cur, names[k - 1])))
  }

  function NewIds(cur: Intents, names: seq<string>): seq<string>
    requires Tracked(cur)
  {
    seq(|names|, i requires 0 <= i < |names| => WorkflowId(names[i], NextGeneration(cur, names[i])))
  }

  datatype Reservation = Changed | Failed(reason: string) | Reserved(ids: seq<string>)

  function Room(occupied: nat): nat {
    if occupied < WORKER_COUNT then WORKER_COUNT - occupied else 0
  }

  /** The slots a reservation refills. */
  function Refilled(cur: Intents, s: Snapshot): seq<string>
    requires Consistent(Ids(cur), s)
  {
    var free := FreeSlots(cur, s, WORKER_COUNT);
    free[..Min(|free|, Room(|Untracked(cur, s)| + BusySlots(cur, s, WORKER_COUNT)))]
  }

  /** `reserve_drainer_workers`: compare with the observed intents, then refill under the lock. */
  function Reserve(t: Table, s: Snapshot): (Table, Reservation) {
    if !AllValid(t) then (t, Failed("invalid drainer worker intent"))
    else
      var cur := Read(t);
      if cur != s.intents then (t, Changed)
      else if !Consistent(Ids(cur), s) then (t, Failed("inconsistent, incomplete or unknown inventory"))
      else
        var names := Refilled(cur, s);
        var t' := UpsertFirst(t, cur, names, |names|);
        if t'.None? then (t, Failed("drainer worker identity collision"))
        else (t'.value, Reserved(Retries(cur, s, WORKER_COUNT) + NewIds(cur, names)))
  }

  // ------------------------------------------------------------------ identities

  lemma ColonFree(n: nat)
    ensures ':' !in Decimal(n)
  {
    assert AllDigits(Decimal(n));
  }

  /** A workflow id names its slot and generation, and nothing else does. */
  lemma IdentityIsExact(name: string, g: nat)
    ensures SplitLastColon(WorkflowId(name, g)) == (name, Decimal(g))
    ensures Canonical(Decimal(g)) && Value(Decimal(g)) == g
  {
    ColonFree(g);
    SplitJoined(name, Decimal(g));
    ValueOfDecimal(g);
  }

  lemma IdentityInjective(a: string, g: nat, b: string, h: nat)
    requires WorkflowId(a, g) == WorkflowId(b, h)
    ensures a == b && g == h
  {
    IdentityIsExact(a, g);
    IdentityIsExact(b, h);
  }

  /** Exactly the ids of earlier generations of a current slot count as superseded: padded,
      foreign, future or suffixed look-alikes do not. */
  lemma SupersededExactly(cur: Intents, w: string)
    requires Tracked(cur)
    ensures Superseded(cur, w) <==>
              exists slot, g: nat :: slot in cur && 0 < g < cur[slot].generation && w == WorkflowId(slot, g)
  {
    var (slot, text) := SplitLastColon(w);
    assert !IsSlot("");
    if Superseded(cur, w) {
      DecimalOfValue(text);
      assert w == WorkflowId(slot, Value(text));
    }
    forall s, g: nat | s in cur && 0 < g < cur[s].generation && w == WorkflowId(s, g) ensures Superseded(cur, w) {
      IdentityIsExact(s, g);
    }
  }
}
