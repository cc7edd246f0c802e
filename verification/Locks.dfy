/** Opportunistic locks with a time to live, keyed by a free-form string. */
module Locks {
  import opened Text

  type LockId = nat

  /** A row of the lock table; times in seconds. */
  datatype Lock = Lock(id: LockId, holder: string, acquiredAt: int, expiresAt: int)

  type Rows = map<string, Lock>

  /** A key can be taken when nobody has it or its lock has lapsed. */
  predicate Takable(rows: Rows, key: string, now: int) {
    key in rows ==> rows[key].expiresAt < now
  }

  function Acquired(rows: Rows, key: string, holder: string, ttl: int, now: int, newId: LockId): Rows {
    if Takable(rows, key, now) then rows[key := Lock(newId, holder, now, now + ttl)] else rows
  }

  function Extended(rows: Rows, id: LockId, ttl: int, now: int): Rows {
    map key | key in rows :: if rows[key].id == id then rows[key].(expiresAt := now + ttl) else rows[key]
  }

  function Released(rows: Rows, id: LockId): Rows {
    map key | key in rows && rows[key].id != id :: rows[key]
  }

  predicate Current(rows: Rows, id: LockId) {
    exists key :: key in rows && rows[key].id == id
  }

  // -------------------------------------------------------------- the lock table

  datatype AcquireResult = AcquireResult(acquired: bool, lockId: Option<LockId>, expiresAt: Option<int>)

  /** A row of a listing. */
  datatype Listed = Listed(key: string, holder: string, acquiredAt: int, expiresAt: int)

  function Line(rows: Rows, key: string): Listed
    requires key in rows
  {
    Listed(key, rows[key].holder, rows[key].acquiredAt, rows[key].expiresAt)
  }

  class LockTable {
    var rows: Rows

    constructor ()
      ensures rows == map[]
    {
      rows := map[];
    }

    /** Takes a free or lapsed key and refuses a live one. */
    method Acquire(key: string, holder: string, ttl: int, now: int, newId: LockId) returns (r: AcquireResult)
      modifies this
      ensures r.acquired <==> old(Takable(rows, key, now))
      ensures r.acquired ==> r.lockId == Some(newId) && r.expiresAt == Some(now + ttl)
      ensures !r.acquired ==> r.lockId.None? && r.expiresAt.None?
      ensures rows == Acquired(old(rows), key, holder, ttl, now, newId)
    {
      if key in rows && rows[key].expiresAt >= now {
        return AcquireResult(false, None, None);
      }
      rows := rows[key := Lock(newId, holder, now, now + ttl)];
      return AcquireResult(true, Some(newId), Some(now + ttl));
    }

    method Extend(id: LockId, ttl: int, now: int) returns (r: Option<int>)
      modifies this
      ensures r == if old(Current(rows, id)) then Some(now + ttl) else None
      ensures rows == Extended(old(rows), id, ttl, now)
    {
      r := if exists key :: key in rows && rows[key].id == id then Some(now + ttl) else None;
      rows := map key | key in rows :: if rows[key].id == id then rows[key].(expiresAt := now + ttl) else rows[key];
    }

    method Release(id: LockId) returns (deleted: bool)
      modifies this
      ensures deleted <==> old(Current(rows, id))
      ensures rows == Released(old(rows), id)
    {
      var kept := map key | key in rows && rows[key].id != id :: rows[key];
      deleted := exists key :: key in rows && key !in kept;
      rows := kept;
    }

    /** The live locks whose key matches, soonest to lapse first. */
    method ListActive(prefix: Option<string>, now: int) returns (listing: seq<Listed>)
      ensures forall i, j :: 0 <= i < j < |listing| ==>
                listing[i].expiresAt <= listing[j].expiresAt && listing[i].key != listing[j].key
      ensures forall l :: l in listing <==> l.key in Active(rows, prefix, now) && l == Line(rows, l.key)
    {
      listing := [];
      var left := Active(rows, prefix, now);
      while left != {}
        invariant left <= Active(rows, prefix, now)
        invariant forall i, j :: 0 <= i < j < |listing| ==>
                    listing[i].expiresAt <= listing[j].expiresAt && listing[i].key != listing[j].key
        invariant forall i :: 0 <= i < |listing| ==>
                    listing[i].key !in left && forall key :: key in left ==> listing[i].expiresAt <= rows[key].expiresAt
        invariant forall l :: l in listing <==> l.key in Active(rows, prefix, now) - left && l == Line(rows, l.key)
        decreases |left|
      {
        var key := Soonest(rows, left);
        listing := listing + [Line(rows, key)];
        left := left - {key};
      }
    }
  }

  function Active(rows: Rows, prefix: Option<string>, now: int): set<string> {
    set key | key in rows && rows[key].expiresAt > now && (prefix.Some? ==> Like(key, prefix.value + "%"))
  }

  method Soonest(rows: Rows, keys: set<string>) returns (key: string)
    requires keys != {} && keys <= rows.Keys
    ensures key in keys && forall k :: k in keys ==> rows[key].expiresAt <= rows[k].expiresAt
  {
    key :| key in keys;
    var left := keys - {key};
    while left != {}
      invariant left <= keys && key in keys
      invariant forall k :: k in keys - left ==> rows[key].expiresAt <= rows[k].expiresAt
      decreases |left|
    {
      var k :| k in left;
      if rows[k].expiresAt < rows[key].expiresAt {
        key := k;
      }
      left := left - {k};
    }
  }

  // ----------------------------------------------------------------- LIKE patterns

  /** SQL `LIKE`: `%` is any text, `_` any character, a backslash quotes the next character. */
  predicate Like(s: string, p: string)
    decreases |p| + |s|
  {
    if p == "" then s == ""
    else if p[0] == '%' then Like(s, p[1..]) || (s != "" && Like(s[1..], p))
    else if s == "" then false
    else if p[0] == '_' then Like(s[1..], p[1..])
    else if p[0] == '\\' && |p| > 1 then s[0] == p[1] && Like(s[1..], p[2..])
    else s[0] == p[0] && Like(s[1..], p[1..])
  }

  predicate Plain(p: string) {
    '%' !in p && '_' !in p && '\\' !in p
  }

  lemma {:induction false} AnythingMatches(s: string)
    ensures Like(s, "%")
  {
    assert "%"[1..] == "";
    if s != "" {
      AnythingMatches(s[1..]);
    }
  }

  lemma {:induction false} PlainIsPrefix(s: string, p: string)
    requires Plain(p)
    ensures Like(s, p + "%") <==> StartsWith(s, p)
    decreases |p|
  {
    if p == "" {
      assert p + "%" == "%";
      AnythingMatches(s);
    } else if s != "" {
      assert (p + "%")[1..] == p[1..] + "%";
      PlainIsPrefix(s[1..], p[1..]);
      assert StartsWith(s, p) <==> s[0] == p[0] && StartsWith(s[1..], p[1..]) by {
        if |p| <= |s| {
          assert s[..|p|] == [s[0]] + s[1..][..|p| - 1];
          assert p == [p[0]] + p[1..];
        }
      }
    }
  }

  /** A shortest text that a pattern matches. */
  function Instance(p: string): string {
    if p == "" then ""
    else if p[0] == '%' then Instance(p[1..])
    else if p[0] == '_' then "x" + Instance(p[1..])
    else if p[0] == '\\' then (if |p| > 1 then [p[1]] + Instance(p[2..]) else "%")
    else [p[0]] + Instance(p[1..])
  }

  lemma {:induction false} InstanceMatches(p: string)
    ensures Like(Instance(p), p + "%")
    decreases |p|
  {
    var q := p + "%";
    if p == "" {
      AnythingMatches("");
      assert q == "%";
    } else {
      assert q[1..] == p[1..] + "%";
      if p[0] == '\\' && |p| == 1 {
        assert q == "\\%" && q[2..] == "" && Instance(p)[1..] == "";
      } else if p[0] == '\\' {
        assert q[2..] == p[2..] + "%";
        InstanceMatches(p[2..]);
        assert Instance(p)[1..] == Instance(p[2..]);
      } else {
        InstanceMatches(p[1..]);
        assert p[0] != '%' ==> Instance(p)[1..] == Instance(p[1..]);
      }
    }
  }

  lemma {:induction false} InstanceDiffers(p: string)
    ensures |Instance(p)| <= |p|
    ensures Instance(p) == p ==> Plain(p)
    decreases |p|
  {
    if p != "" {
      if p[0] == '\\' && |p| > 1 {
        InstanceDiffers(p[2..]);
      } else {
        InstanceDiffers(p[1..]);
        assert p == [p[0]] + p[1..];
        if Instance(p) == p && p[0] != '%' && p[0] != '\\' {
          assert Instance(p)[1..] == Instance(p[1..]);
        }
      }
    }
  }

  /** The listing's key filter is a prefix test exactly for prefixes without `%`, `_` and backslash. */
  lemma FilterIsPrefixExactly(p: string)
    ensures (forall key :: Like(key, p + "%") <==> StartsWith(key, p)) <==> Plain(p)
  {
    if Plain(p) {
      forall key ensures Like(key, p + "%") <==> StartsWith(key, p) {
        PlainIsPrefix(key, p);
      }
    } else {
      InstanceMatches(p);
      InstanceDiffers(p);
      assert !StartsWith(Instance(p), p) by {
        if |Instance(p)| == |p| { assert Instance(p)[..|p|] == Instance(p); }
      }
    }
  }

  /** For example an underscore matches any character. */
  lemma UnderscoreIsAWildcard()
    ensures Like("prX1", "pr_" + "%") && !StartsWith("prX1", "pr_")
  {
    assert Like("1", "%") by { AnythingMatches("1"); }
    var p := "pr_" + "%";
    assert p[1..] == "r_%" && p[1..][1..] == "_%" && p[1..][1..][1..] == "%";
    assert "prX1"[1..] == "rX1" && "rX1"[1..] == "X1" && "X1"[1..] == "1";
    assert "prX1"[..3][2] == 'X';
  }

  // ------------------------------------------------------------------- histories

  datatype Op =
    | Acquire(key: string, holder: string, ttl: int, newId: LockId)
    | Extend(id: LockId, ttl: int)
    | Release(id: LockId)

  /** What the holder of an id may rely on: from its acquisition to the expiry it was last told,
      or to its release. */
  datatype Tenure = Tenure(key: string, from: int, until: int)

  datatype World = World(rows: Rows, clock: int, tenures: map<LockId, Tenure>)

  /** The clock moves on and one operation takes effect. */
  function Next(w: World, op: Op, now: int): World {
    match op
    case Acquire(key, holder, ttl, id) =>
      World(Acquired(w.rows, key, holder, ttl, now, id), now,
            if Takable(w.rows, key, now) then w.tenures[id := Tenure(key, now, now + ttl)] else w.tenures)
    case Extend(id, ttl) =>
      World(Extended(w.rows, id, ttl, now), now, Ending(w, id, now + ttl))
    case Release(id) =>
      World(Released(w.rows, id), now, Ending(w, id, now))
  }

  /** An operation on an id that still has its row moves the end of its tenure. */
  function Ending(w: World, id: LockId, until: int): map<LockId, Tenure> {
    if Current(w.rows, id) && id in w.tenures then w.tenures[id := w.tenures[id].(until := until)] else w.tenures
  }

  /** Ids are never reused. */
  predicate FreshOp(w: World, op: Op) {
    op.Acquire? ==> op.newId !in w.tenures
  }

  /** The row of a key belongs to the newest tenure on it; every other tenure is over. */
  ghost predicate Inv(w: World) {
    RowsHaveTenures(w) && OthersAreOver(w) && AllApart(w)
  }

  ghost predicate RowsHaveTenures(w: World) {
    forall key {:trigger w.rows[key]} :: key in w.rows ==> RowHasTenure(w, key)
  }

  ghost predicate OthersAreOver(w: World) {
    forall id {:trigger w.tenures[id]} :: id in w.tenures && !Holds(w, id) ==> w.tenures[id].until <= w.clock
  }

  ghost predicate AllApart(w: World) {
    forall a, b {:trigger w.tenures[a], w.tenures[b]} :: a in w.tenures && b in w.tenures && a != b ==> Apart(w, a, b)
  }

  ghost predicate RowHasTenure(w: World, key: string)
    requires key in w.rows
  {
    var row := w.rows[key];
    row.id in w.tenures && w.tenures[row.id] == Tenure(key, row.acquiredAt, row.expiresAt) && row.acquiredAt <= w.clock
  }

  /** The id still has its row. */
  ghost predicate Holds(w: World, id: LockId)
    requires id in w.tenures
  {
    var key := w.tenures[id].key;
    key in w.rows && w.rows[key].id == id
  }

  ghost predicate Apart(w: World, a: LockId, b: LockId)
    requires a in w.tenures && b in w.tenures
  {
    var s, t := w.tenures[a], w.tenures[b];
    s.key == t.key ==> (!Holds(w, a) && s.until <= t.from) || (!Holds(w, b) && t.until <= s.from)
  }

  lemma HoldsIsCurrent(w: World, id: LockId)
    requires RowsHaveTenures(w) && id in w.tenures
    ensures Holds(w, id) <==> Current(w.rows, id)
  {
    if Current(w.rows, id) {
      var key :| key in w.rows && w.rows[key].id == id;
      assert RowHasTenure(w, key);
    }
  }

  /** After a step that moves no end forward except that of the id in its row, tenures stay apart. */
  lemma ApartStays(w: World, v: World, a: LockId, b: LockId)
    requires a in w.tenures && b in w.tenures && Apart(w, a, b)
    requires a in v.tenures && b in v.tenures
    requires v.tenures[a].(until := w.tenures[a].until) == w.tenures[a]
    requires v.tenures[b].(until := w.tenures[b].until) == w.tenures[b]
    requires !Holds(w, a) ==> !Holds(v, a) && v.tenures[a] == w.tenures[a]
    requires !Holds(w, b) ==> !Holds(v, b) && v.tenures[b] == w.tenures[b]
    ensures Apart(v, a, b)
  {
  }

  lemma AcquireKeepsRows(w: World, op: Op, now: int)
    requires RowsHaveTenures(w) && FreshOp(w, op) && w.clock <= now && op.Acquire?
    ensures RowsHaveTenures(Next(w, op, now))
  {
    var v := Next(w, op, now);
    forall key | key in v.rows ensures RowHasTenure(v, key) {
      if key in w.rows { assert RowHasTenure(w, key); }
    }
  }

  /** Whoever had a key that is taken now has no claim to it any more. */
  lemma EarlierIsOver(w: World, op: Op, now: int, id: LockId)
    requires RowsHaveTenures(w) && OthersAreOver(w) && w.clock <= now && op.Acquire?
    requires Takable(w.rows, op.key, now) && id in w.tenures && w.tenures[id].key == op.key
    ensures w.tenures[id].until <= now
  {
    if Holds(w, id) { assert RowHasTenure(w, op.key); }
  }

  lemma AcquireKeepsOver(w: World, op: Op, now: int)
    requires RowsHaveTenures(w) && OthersAreOver(w) && FreshOp(w, op) && w.clock <= now && op.Acquire?
    ensures OthersAreOver(Next(w, op, now))
  {
    var v := Next(w, op, now);
    forall id | id in v.tenures && !Holds(v, id) ensures v.tenures[id].until <= now {
      if id in w.tenures && Takable(w.rows, op.key, now) && w.tenures[id].key == op.key {
        EarlierIsOver(w, op, now, id);
      }
    }
  }

  lemma AcquireKeepsApart(w: World, op: Op, now: int, a: LockId, b: LockId)
    requires RowsHaveTenures(w) && OthersAreOver(w) && AllApart(w) && FreshOp(w, op) && w.clock <= now && op.Acquire?
    requires a in Next(w, op, now).tenures && b in Next(w, op, now).tenures && a != b
    ensures Apart(Next(w, op, now), a, b)
  {
    var v := Next(w, op, now);
    if a in w.tenures && b in w.tenures {
      assert Apart(w, a, b);
      ApartStays(w, v, a, b);
    } else {
      var earlier := if a in w.tenures then a else b;
      if w.tenures[earlier].key == op.key { EarlierIsOver(w, op, now, earlier); }
    }
  }

  lemma AcquireKeeps(w: World, op: Op, now: int)
    requires Inv(w) && FreshOp(w, op) && w.clock <= now && op.Acquire?
    ensures Inv(Next(w, op, now))
  {
    var v := Next(w, op, now);
    AcquireKeepsRows(w, op, now);
    AcquireKeepsOver(w, op, now);
    forall a, b | a in v.tenures && b in v.tenures && a != b ensures Apart(v, a, b) {
      AcquireKeepsApart(w, op, now, a, b);
    }
  }

  lemma EndingKeepsRows(w: World, op: Op, now: int)
    requires RowsHaveTenures(w) && w.clock <= now && !op.Acquire?
    ensures RowsHaveTenures(Next(w, op, now))
  {
    var v := Next(w, op, now);
    forall key | key in v.rows ensures RowHasTenure(v, key) {
      assert RowHasTenure(w, key);
      if w.rows[key].id == op.id { assert Current(w.rows, op.id); }
    }
  }

  /** An id that has lost its row keeps its tenure as it was. */
  lemma EndedStays(w: World, op: Op, now: int, id: LockId)
    requires RowsHaveTenures(w) && !op.Acquire? && id in w.tenures
    ensures var v := Next(w, op, now);
            && id in v.tenures && v.tenures[id].(until := w.tenures[id].until) == w.tenures[id]
            && (!Holds(w, id) ==> !Holds(v, id) && v.tenures[id] == w.tenures[id])
            && (Holds(w, id) && !Holds(v, id) ==> v.tenures[id].until == now)
  {
    HoldsIsCurrent(w, id);
  }

  lemma EndingKeeps(w: World, op: Op, now: int)
    requires Inv(w) && w.clock <= now && !op.Acquire?
    ensures Inv(Next(w, op, now))
  {
    var v := Next(w, op, now);
    EndingKeepsRows(w, op, now);
    forall id | id in v.tenures && !Holds(v, id) ensures v.tenures[id].until <= now {
      EndedStays(w, op, now, id);
    }
    forall a, b | a in v.tenures && b in v.tenures && a != b ensures Apart(v, a, b) {
      EndedStays(w, op, now, a);
      EndedStays(w, op, now, b);
      assert Apart(w, a, b);
      ApartStays(w, v, a, b);
    }
  }

  // ------------------------------------------------------------------------ runs

  /** A history of operations from an empty table, under a clock that never runs back. */
  ghost predicate IsRun(ws: seq<World>, ops: seq<Op>) {
    && |ws| == |ops| + 1 && ws[0].rows == map[] && ws[0].tenures == map[]
    && (forall i {:trigger ops[i]} :: 0 <= i < |ops| ==>
          ws[i].clock <= ws[i + 1].clock && FreshOp(ws[i], ops[i]) && ws[i + 1] == Next(ws[i], ops[i], ws[i + 1].clock))
  }

  lemma {:induction false} RunKeeps(ws: seq<World>, ops: seq<Op>, k: nat)
    requires IsRun(ws, ops) && k < |ws|
    ensures Inv(ws[k])
  {
    if k > 0 {
      RunKeeps(ws, ops, k - 1);
      var w, op, now := ws[k - 1], ops[k - 1], ws[k].clock;
      if op.Acquire? {
        AcquireKeeps(w, op, now);
      } else {
        EndingKeeps(w, op, now);
      }
    }
  }

  /** No two holders of one key may ever rely on it at the same time. */
  lemma TenuresNeverOverlap(ws: seq<World>, ops: seq<Op>, k: nat, a: LockId, b: LockId, t: int)
    requires IsRun(ws, ops) && k < |ws|
    requires a in ws[k].tenures && b in ws[k].tenures && a != b && ws[k].tenures[a].key == ws[k].tenures[b].key
    ensures !(ws[k].tenures[a].from <= t < ws[k].tenures[a].until && ws[k].tenures[b].from <= t < ws[k].tenures[b].until)
  {
    RunKeeps(ws, ops, k);
    assert Apart(ws[k], a, b);
  }

  lemma {:induction false} IdsAreRemembered(ws: seq<World>, ops: seq<Op>, j: nat, k: nat, id: LockId)
    requires IsRun(ws, ops) && j <= k < |ws| && id in ws[j].tenures
    ensures id in ws[k].tenures
    decreases k
  {
    if j < k {
      IdsAreRemembered(ws, ops, j, k - 1, id);
      assert ws[k] == Next(ws[k - 1], ops[k - 1], ws[k].clock);
    }
  }

  lemma StaysDead(w: World, op: Op, now: int, id: LockId)
    requires FreshOp(w, op) && id in w.tenures && !Current(w.rows, id)
    ensures !Current(Next(w, op, now).rows, id)
  {
    var rows := Next(w, op, now).rows;
    forall key | key in rows ensures rows[key].id != id {
      if key in w.rows { assert w.rows[key].id != id; }
    }
  }

  /** Once a lock is stolen or released, its old id extends and releases nothing, ever after. */
  lemma {:induction false} DeadIdsStayDead(ws: seq<World>, ops: seq<Op>, j: nat, k: nat, id: LockId, ttl: int, now: int)
    requires IsRun(ws, ops) && j <= k < |ws| && id in ws[j].tenures && !Current(ws[j].rows, id)
    ensures !Current(ws[k].rows, id)
    ensures Extended(ws[k].rows, id, ttl, now) == ws[k].rows && Released(ws[k].rows, id) == ws[k].rows
    decreases k
  {
    if j < k {
      DeadIdsStayDead(ws, ops, j, k - 1, id, ttl, now);
      IdsAreRemembered(ws, ops, j, k - 1, id);
      StaysDead(ws[k - 1], ops[k - 1], ws[k].clock, id);
    }
  }

  lemma LostOnlyAfterExpiry(w: World, op: Op, now: int, id: LockId)
    requires Inv(w) && FreshOp(w, op) && w.clock <= now && id in w.tenures && op != Release(id)
    requires Current(w.rows, id) || w.tenures[id].until < w.clock
    ensures Current(Next(w, op, now).rows, id) || Next(w, op, now).tenures[id].until < now
  {
    HoldsIsCurrent(w, id);
    if Holds(w, id) {
      var key := w.tenures[id].key;
      var rows := Next(w, op, now).rows;
      assert RowHasTenure(w, key);
      assert key in rows;
      if rows[key].id != id {
        assert op.Acquire? && op.key == key && w.rows[key].expiresAt < now;
      }
    }
  }

  /** A holder keeps its lock for as long as it was last promised, unless it gives the lock up. */
  lemma {:induction false} PromisesAreKept(ws: seq<World>, ops: seq<Op>, j: nat, k: nat, id: LockId)
    requires IsRun(ws, ops) && j <= k < |ws| && id in ws[j].tenures && Current(ws[j].rows, id)
    requires forall i {:trigger ops[i]} :: j <= i < k ==> ops[i] != Release(id)
    ensures id in ws[k].tenures
    ensures ws[k].clock <= ws[k].tenures[id].until ==> Current(ws[k].rows, id)
    decreases k
  {
    if j < k {
      PromisesAreKept(ws, ops, j, k - 1, id);
      RunKeeps(ws, ops, k - 1);
      LostOnlyAfterExpiry(ws[k - 1], ops[k - 1], ws[k].clock, id);
    }
  }
}
