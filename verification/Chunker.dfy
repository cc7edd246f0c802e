/** Content-defined chunking of flattened images: a streaming, buffer-trimming chunker and the
    one-shot function of the whole image that it computes. */
module Chunker {
  import opened Sums

  type Byte = b: int | 0 <= b < 256
  type Bytes = seq<Byte>

  /** One more than the largest 64-bit word. */
  const WORD: nat := 0x1_0000_0000_0000_0000

  const GEAR_ALGORITHM := "gear-v1"
  const FIXED_ALGORITHM := "fixed-v1"

  datatype Params = Params(minimum: int, average: int, maximum: int, algorithm: string)
  datatype Result<+T> = Ok(value: T) | Err(reason: string)
  datatype Cut = NotYet | At(size: nat)

  // --------------------------------------------------------------- powers of two

  function Pow2(n: nat): (r: nat)
    ensures r >= 1
  {
    if n == 0 then 1 else 2 * Pow2(n - 1)
  }

  /** `n.bit_length() - 1`. */
  function Log2(n: nat): nat {
    if n < 2 then 0 else 1 + Log2(n / 2)
  }

  predicate PowerOfTwo(n: nat) {
    n == Pow2(Log2(n))
  }

  predicate Valid(p: Params) {
    && 0 < p.minimum <= p.average <= p.maximum
    && PowerOfTwo(p.average)
    && (p.algorithm == GEAR_ALGORITHM || p.algorithm == FIXED_ALGORITHM)
  }

  /** How many low bits of the fingerprint must vanish for a cut after byte `i`: the early
      mask has one bit more than the average size, the late mask one bit fewer. */
  function MaskBits(p: Params, i: nat): nat
    requires Valid(p)
  {
    var bits := Log2(p.average);
    if i < p.average then bits + 1 else if bits >= 2 then bits - 1 else 1
  }

  // ----------------------------------------------------------------- fingerprint

  /** One byte more: shift, add the byte's gear, keep 64 bits. */
  function Roll(gear: Byte -> nat, fingerprint: nat, b: Byte): nat {
    (2 * fingerprint + gear(b)) % WORD
  }

  /** The gear fingerprint of the bytes scanned so far. */
  function Fingerprint(gear: Byte -> nat, s: Bytes): nat {
    if s == [] then 0 else Roll(gear, Fingerprint(gear, s[..|s| - 1]), s[|s| - 1])
  }

  /** `fingerprint & mask == 0` for the mask of the `k` lowest bits. */
  predicate Masked(fingerprint: nat, k: nat) {
    fingerprint % Pow2(k) == 0
  }

  predicate Vanishes(gear: Byte -> nat, k: nat, scanned: Bytes) {
    Masked(Fingerprint(gear, scanned), k)
  }

  /** A content-defined boundary right after index `i`. */
  predicate Boundary(gear: Byte -> nat, p: Params, s: Bytes, i: nat)
    requires Valid(p) && p.minimum <= i < |s|
  {
    Vanishes(gear, MaskBits(p, i), s[p.minimum..i + 1])
  }

  // ------------------------------------------------------------------ the first cut

  /** The first boundary from index `i` on, the maximum when none comes in time. */
  function CutFrom(gear: Byte -> nat, p: Params, s: Bytes, i: nat): (r: Cut)
    requires Valid(p) && p.minimum <= i <= Min(|s|, p.maximum)
    ensures r.At? ==> p.minimum <= r.size <= Min(|s|, p.maximum)
    ensures r.NotYet? ==> |s| < p.maximum
    decreases Min(|s|, p.maximum) - i
  {
    if i == Min(|s|, p.maximum) then (if |s| >= p.maximum then At(p.maximum) else NotYet)
    else if Boundary(gear, p, s, i) then At(i + 1)
    else CutFrom(gear, p, s, i + 1)
  }

  function FirstCut(gear: Byte -> nat, p: Params, s: Bytes): (r: Cut)
    requires Valid(p)
    ensures r.At? ==> p.minimum <= r.size <= Min(|s|, p.maximum)
    ensures r.NotYet? ==> |s| < p.maximum
  {
    if |s| < p.minimum then NotYet else CutFrom(gear, p, s, p.minimum)
  }

  /** The first cut, said without a scan: it is at the first boundary before the maximum, or
      at the maximum when there is none, and it is not known yet exactly when neither is. */
  lemma FirstCutExactly(gear: Byte -> nat, p: Params, s: Bytes, b: nat)
    requires Valid(p)
    ensures FirstCut(gear, p, s) == At(b) <==>
              || (p.minimum < b <= Min(|s|, p.maximum) && Boundary(gear, p, s, b - 1)
                  && forall i :: p.minimum <= i < b - 1 ==> !Boundary(gear, p, s, i))
              || (b == p.maximum <= |s| && forall i :: p.minimum <= i < p.maximum ==> !Boundary(gear, p, s, i))
  {
    if |s| >= p.minimum {
      CutFromExactly(gear, p, s, p.minimum, b);
    }
  }

  lemma {:induction false} CutFromExactly(gear: Byte -> nat, p: Params, s: Bytes, i: nat, b: nat)
    requires Valid(p) && p.minimum <= i <= Min(|s|, p.maximum)
    ensures CutFrom(gear, p, s, i) == At(b) <==>
              || (i < b <= Min(|s|, p.maximum) && Boundary(gear, p, s, b - 1)
                  && forall j :: i <= j < b - 1 ==> !Boundary(gear, p, s, j))
              || (b == p.maximum <= |s| && forall j :: i <= j < p.maximum ==> !Boundary(gear, p, s, j))
    decreases Min(|s|, p.maximum) - i
  {
    if i < Min(|s|, p.maximum) {
      CutFromExactly(gear, p, s, i + 1, b);
    }
  }

  /** A cut found in a prefix is the cut of everything that starts with that prefix. */
  lemma {:induction false} CutIsStable(gear: Byte -> nat, p: Params, s: Bytes, more: Bytes, i: nat)
    requires Valid(p) && p.minimum <= i <= Min(|s|, p.maximum) && CutFrom(gear, p, s, i).At?
    ensures CutFrom(gear, p, s + more, i) == CutFrom(gear, p, s, i)
    decreases Min(|s|, p.maximum) - i
  {
    if i < Min(|s|, p.maximum) {
      assert (s + more)[p.minimum..i + 1] == s[p.minimum..i + 1];
      if !Boundary(gear, p, s, i) {
        CutIsStable(gear, p, s, more, i + 1);
      }
    }
  }

  /** A scan that has reached index `i` without finding a boundary. */
  ghost predicate Scanned(gear: Byte -> nat, p: Params, s: Bytes, i: nat, fingerprint: nat) {
    && Valid(p) && p.minimum <= i <= Min(|s|, p.maximum)
    && fingerprint == Fingerprint(gear, s[p.minimum..i])
    && CutFrom(gear, p, s, i) == FirstCut(gear, p, s)
  }

  lemma ScanStart(gear: Byte -> nat, p: Params, s: Bytes)
    requires Valid(p) && p.minimum <= |s|
    ensures Scanned(gear, p, s, p.minimum, 0)
  {
  }

  lemma ScanStep(gear: Byte -> nat, p: Params, s: Bytes, i: nat, fingerprint: nat)
    requires Scanned(gear, p, s, i, fingerprint) && i < Min(|s|, p.maximum)
    ensures var next := Roll(gear, fingerprint, s[i]);
            if Masked(next, MaskBits(p, i)) then FirstCut(gear, p, s) == At(i + 1) else Scanned(gear, p, s, i + 1, next)
  {
    assert s[p.minimum..i + 1][..i - p.minimum] == s[p.minimum..i];
  }

  /** `_cut`: two scans with a running fingerprint, one per mask. */
  method FindCut(gear: Byte -> nat, p: Params, buffer: Bytes) returns (r: Cut)
    requires Valid(p)
    ensures r == FirstCut(gear, p, buffer)
  {
    if |buffer| < p.minimum {
      return NotYet;
    }
    var early, late := MaskBits(p, 0), MaskBits(p, p.average);
    var fingerprint := 0;
    var normalEnd := Min(|buffer|, p.average);
    ScanStart(gear, p, buffer);
    for i := p.minimum to normalEnd
      invariant Scanned(gear, p, buffer, i, fingerprint)
    {
      ScanStep(gear, p, buffer, i, fingerprint);
      fingerprint := Roll(gear, fingerprint, buffer[i]);
      if Masked(fingerprint, early) {
        return At(i + 1);
      }
    }
    for i := normalEnd to Min(|buffer|, p.maximum)
      invariant Scanned(gear, p, buffer, i, fingerprint)
    {
      ScanStep(gear, p, buffer, i, fingerprint);
      fingerprint := Roll(gear, fingerprint, buffer[i]);
      if Masked(fingerprint, late) {
        return At(i + 1);
      }
    }
    if |buffer| >= p.maximum {
      return At(p.maximum);
    }
    return NotYet;
  }

  // ------------------------------------------------------------------- all chunks

  /** The size of the first chunk of a whole image. */
  function FirstSize(gear: Byte -> nat, p: Params, s: Bytes): (b: nat)
    requires Valid(p) && s != []
    ensures 0 < b <= |s| && b <= p.maximum
    ensures b < |s| ==> p.minimum <= b
  {
    if p.algorithm == FIXED_ALGORITHM then Min(|s|, p.average)
    else match FirstCut(gear, p, s) case At(b) => b case NotYet => |s|
  }

  /** The chunks of a whole image, as a one-shot function. */
  function Chunks(gear: Byte -> nat, p: Params, s: Bytes): seq<Bytes>
    requires Valid(p)
    decreases |s|
  {
    if s == [] then []
    else
      var b := FirstSize(gear, p, s);
      [s[..b]] + Chunks(gear, p, s[b..])
  }

  function Flatten(chunks: seq<Bytes>): Bytes {
    if chunks == [] then [] else chunks[0] + Flatten(chunks[1..])
  }

  /** The chunks concatenate back to the image; all but the last lie between the minimum and
      the maximum size, and the last is non-empty and at most the maximum. */
  lemma {:induction false} ChunksPartition(gear: Byte -> nat, p: Params, s: Bytes)
    requires Valid(p)
    ensures Flatten(Chunks(gear, p, s)) == s
    ensures forall i :: 0 <= i < |Chunks(gear, p, s)| ==>
              0 < |Chunks(gear, p, s)[i]| <= p.maximum
              && (i < |Chunks(gear, p, s)| - 1 ==> p.minimum <= |Chunks(gear, p, s)[i]|)
    decreases |s|
  {
    if s != [] {
      var b := FirstSize(gear, p, s);
      ChunksPartition(gear, p, s[b..]);
      var rest := Chunks(gear, p, s[b..]);
      assert Chunks(gear, p, s) == [s[..b]] + rest;
      assert s == s[..b] + s[b..];
      assert rest == [] ==> s[b..] == [];
      forall i | 0 <= i < 1 + |rest| ensures
        0 < |([s[..b]] + rest)[i]| <= p.maximum && (i < |rest| ==> p.minimum <= |([s[..b]] + rest)[i]|)
      {
        if i > 0 { assert ([s[..b]] + rest)[i] == rest[i - 1]; }
      }
    }
  }

  // ------------------------------------------------------------------ the stream

  /** What a stream delivers: its blocks up to the first empty read. */
  function Received(blocks: seq<Bytes>): Bytes {
    if blocks == [] || blocks[0] == [] then [] else blocks[0] + Received(blocks[1..])
  }

  datatype Record = Record(digest: string, size: nat)

  function RecordOf(digest: Bytes -> string, chunk: Bytes): Record {
    Record(digest(chunk), |chunk|)
  }

  function Records(digest: Bytes -> string, chunks: seq<Bytes>): seq<Record> {
    seq(|chunks|, i requires 0 <= i < |chunks| => RecordOf(digest, chunks[i]))
  }

  /** A chunk taken from the buffer is the first chunk of everything still to come. */
  lemma TakenChunk(gear: Byte -> nat, p: Params, buffer: Bytes, more: Bytes, b: nat)
    requires Valid(p) && buffer != [] && 0 < b <= |buffer|
    requires || (more == [] && b == FirstSize(gear, p, buffer))
             || (p.algorithm == GEAR_ALGORITHM && FirstCut(gear, p, buffer) == At(b))
             || (p.algorithm == FIXED_ALGORITHM && b == p.average)
    ensures Chunks(gear, p, buffer + more) == [buffer[..b]] + Chunks(gear, p, buffer[b..] + more)
  {
    var s := buffer + more;
    if p.algorithm == GEAR_ALGORITHM && FirstCut(gear, p, buffer) == At(b) {
      CutIsStable(gear, p, buffer, more, p.minimum);
    } else if more == [] {
      assert s == buffer;
    }
    assert FirstSize(gear, p, s) == b;
    assert s[..b] == buffer[..b] && s[b..] == buffer[b..] + more;
  }

  /** Take every chunk that is ready out of the buffer; at the end of the stream, all of it. */
  method Drain(gear: Byte -> nat, p: Params, buffer: Bytes, ended: bool, ghost more: Bytes) returns (out: seq<Bytes>, left: Bytes)
    requires Valid(p) && (ended ==> more == [])
    ensures out + Chunks(gear, p, left + more) == Chunks(gear, p, buffer + more)
    ensures ended ==> left == []
  {
    out, left := [], buffer;
    while left != []
      invariant out + Chunks(gear, p, left + more) == Chunks(gear, p, buffer + more)
      decreases |left|
    {
      var boundary: nat;
      if p.algorithm == FIXED_ALGORITHM {
        if |left| < p.average && !ended {
          break;
        }
        boundary := Min(|left|, p.average);
      } else {
        var cut := FindCut(gear, p, left);
        if cut.NotYet? && !ended {
          break;
        }
        boundary := if cut.At? then cut.size else |left|;
      }
      TakenChunk(gear, p, left, more, boundary);
      assert out + ([left[..boundary]] + Chunks(gear, p, left[boundary..] + more))
          == (out + [left[..boundary]]) + Chunks(gear, p, left[boundary..] + more);
      out := out + [left[..boundary]];
      left := left[boundary..];
    }
  }

  /** `iter_chunk_records`: whatever the reads are, the records are those of the one-shot
      chunks of everything read. */
  method IterChunkRecords(gear: Byte -> nat, digest: Bytes -> string, p: Params, readSize: int, blocks: seq<Bytes>)
    returns (r: Result<seq<Record>>)
    ensures r.Ok? <==> Valid(p) && readSize > 0
    ensures r.Ok? ==> r.value == Records(digest, Chunks(gear, p, Received(blocks)))
  {
    if !Valid(p) {
      return Err("invalid chunking parameters");
    }
    if readSize <= 0 {
      return Err("read_size must be positive");
    }
    var out: seq<Bytes> := [];
    var buffer: Bytes := [];
    var i := 0;
    assert buffer + Received(blocks[0..]) == Received(blocks);
    while i < |blocks| && blocks[i] != []
      invariant 0 <= i <= |blocks|
      invariant out + Chunks(gear, p, buffer + Received(blocks[i..])) == Chunks(gear, p, Received(blocks))
    {
      ghost var more := Received(blocks[i + 1..]);
      assert blocks[i..][1..] == blocks[i + 1..];
      assert buffer + Received(blocks[i..]) == (buffer + blocks[i]) + more;
      buffer := buffer + blocks[i];
      i := i + 1;
      var ready, left := Drain(gear, p, buffer, false, more);
      assert out + (ready + Chunks(gear, p, left + more)) == (out + ready) + Chunks(gear, p, left + more);
      out, buffer := out + ready, left;
    }
    assert Received(blocks[i..]) == [];
    var last, none := Drain(gear, p, buffer, true, []);
    assert buffer + [] == buffer && none + [] == [];
    assert last + [] == last;
    return Ok(Records(digest, out + last));
  }

  // -------------------------------------------------------------------- locality

  lemma TwiceProduct(q: nat, m: nat)
    ensures q * (2 * m) == 2 * (q * m)
  {
  }

  lemma Doubled(a: nat, g: nat, m: nat)
    requires m > 0
    ensures (2 * a + g) % (2 * m) == (2 * (a % m) + g) % (2 * m)
  {
    var q, r := a / m, a % m;
    assert a == q * m + r;
    TwiceProduct(q, m);
    ShiftMod(2 * r + g, q, 2 * m);
  }

  /** Doubling and adding carries agreement modulo `m` to agreement modulo `2 * m`. */
  lemma DoubleStep(a: nat, b: nat, g: nat, m: nat)
    requires m > 0 && a % m == b % m
    ensures (2 * a + g) % (2 * m) == (2 * b + g) % (2 * m)
  {
    Doubled(a, g, m);
    Doubled(b, g, m);
  }

  lemma {:induction false} ShiftMod(x: nat, q: nat, m: nat)
    requires m > 0
    ensures (q * m + x) % m == x % m
  {
    if q > 0 {
      ShiftMod(x, q - 1, m);
      assert q * m + x == ((q - 1) * m + x) + m;
      AddModulus((q - 1) * m + x, m);
    }
  }

  lemma AddModulus(x: nat, m: nat)
    requires m > 0
    ensures (x + m) % m == x % m
  {
    var q, r, q' := x / m, x % m, (x + m) / m;
    assert x + m == (q + 1) * m + r;
    assert x + m == q' * m + (x + m) % m;
    MulMonotone(q + 2, q', m);
    MulMonotone(q', q, m);
  }

  lemma MulMonotone(a: nat, b: nat, m: nat)
    ensures a <= b ==> a * m <= b * m
  {
  }

  /** Reducing modulo a multiple first does not matter. */
  lemma ModOfMod(x: nat, m: nat, k: nat)
    requires m > 0 && k > 0
    ensures (x % (k * m)) % m == x % m
  {
    var q, r := x / (k * m), x % (k * m);
    assert x == q * (k * m) + r;
    assert q * (k * m) == (q * k) * m;
    ShiftMod(r, q * k, m);
  }

  lemma {:induction false} Pow2Splits(j: nat, n: nat)
    requires j <= n
    ensures Pow2(n) == Pow2(n - j) * Pow2(j)
  {
    if j > 0 {
      Pow2Splits(j - 1, n - 1);
      assert Pow2(n) == 2 * Pow2(n - 1) && Pow2(j) == 2 * Pow2(j - 1);
    }
  }

  lemma WordIsPow2()
    ensures WORD == Pow2(64)
  {
    assert Pow2(8) == 256;
    Pow2Splits(8, 16);
    Pow2Splits(16, 32);
    Pow2Splits(32, 64);
  }

  lemma Reduce64(x: nat, j: nat)
    requires j <= 64
    ensures (x % WORD) % Pow2(j) == x % Pow2(j)
  {
    WordIsPow2();
    Pow2Splits(j, 64);
    ModOfMod(x, Pow2(j), Pow2(64 - j));
  }

  /** One rolling step carries agreement of `j - 1` low bits to agreement of `j`. */
  lemma RollAgrees(a: nat, b: nat, g: nat, j: nat)
    requires 0 < j <= 64 && a % Pow2(j - 1) == b % Pow2(j - 1)
    ensures ((2 * a + g) % WORD) % Pow2(j) == ((2 * b + g) % WORD) % Pow2(j)
  {
    DoubleStep(a, b, g, Pow2(j - 1));
    Reduce64(2 * a + g, j);
    Reduce64(2 * b + g, j);
  }

  /** The low `j` bits of the fingerprint depend on the last `j` bytes only. */
  lemma {:induction false} LowBitsAreLocal(gear: Byte -> nat, u: Bytes, v: Bytes, j: nat)
    requires j <= 64 && j <= |v|
    ensures Fingerprint(gear, u + v) % Pow2(j) == Fingerprint(gear, v) % Pow2(j)
  {
    if j > 0 {
      var v', c := v[..|v| - 1], v[|v| - 1];
      assert (u + v)[..|u + v| - 1] == u + v';
      LowBitsAreLocal(gear, u, v', j - 1);
      RollAgrees(Fingerprint(gear, u + v'), Fingerprint(gear, v'), gear(c), j);
    }
  }

  lemma Below64(gear: Byte -> nat, s: Bytes)
    ensures Fingerprint(gear, s) < WORD
  {
  }

  lemma {:induction false} Pow2Monotone(j: nat, n: nat)
    requires j <= n
    ensures Pow2(j) <= Pow2(n)
  {
    if j < n { Pow2Monotone(j, n - 1); }
  }

  lemma SmallMod(x: nat, m: nat)
    requires x < m
    ensures x % m == x
  {
  }

  lemma WideMask(gear: Byte -> nat, k: nat, s: Bytes)
    requires k >= 64
    ensures Vanishes(gear, k, s) <==> Vanishes(gear, 64, s)
  {
    Below64(gear, s);
    Pow2Monotone(64, k);
    WordIsPow2();
    SmallMod(Fingerprint(gear, s), Pow2(k));
    SmallMod(Fingerprint(gear, s), Pow2(64));
  }

  /** The boundary test looks at no more than the last min(k, 64) scanned bytes, where k is the
      number of mask bits: whatever was scanned before them does not matter. */
  lemma BoundaryTestIsLocal(gear: Byte -> nat, k: nat, u: Bytes, u': Bytes, v: Bytes)
    requires Min(k, 64) <= |v|
    ensures Vanishes(gear, k, u + v) <==> Vanishes(gear, k, u' + v)
  {
    var j := Min(k, 64);
    LowBitsAreLocal(gear, u, v, j);
    LowBitsAreLocal(gear, u', v, j);
    if k >= 64 {
      WideMask(gear, k, u + v);
      WideMask(gear, k, u' + v);
    }
  }

  // ----------------------------------------------------------------- resynchrony

  /** From a chunk boundary on, the chunks are those of the rest of the image alone. */
  lemma {:induction false} ChunksFromBoundary(gear: Byte -> nat, p: Params, a: Bytes, c: Bytes, i: nat)
    requires Valid(p) && i <= |Chunks(gear, p, a + c)|
    requires Flatten(Chunks(gear, p, a + c)[..i]) == a
    ensures Chunks(gear, p, a + c)[i..] == Chunks(gear, p, c)
    decreases i
  {
    var s := a + c;
    var all := Chunks(gear, p, s);
    if i == 0 {
      assert all[..0] == [] && s == c;
    } else {
      var b := FirstSize(gear, p, s);
      var rest := Chunks(gear, p, s[b..]);
      assert all == [s[..b]] + rest;
      assert all[..i] == [s[..b]] + rest[..i - 1];
      assert Flatten(all[..i]) == s[..b] + Flatten(rest[..i - 1]) by {
        assert ([s[..b]] + rest[..i - 1])[1..] == rest[..i - 1];
      }
      assert a[b..] == Flatten(rest[..i - 1]);
      assert s[b..] == a[b..] + c;
      ChunksFromBoundary(gear, p, a[b..], c, i - 1);
      assert all[i..] == rest[i - 1..];
    }
  }

  /** Two images that share a suffix, both with a chunk boundary where it starts, have the
      same chunks from there on. */
  lemma SharedSuffixResyncs(gear: Byte -> nat, p: Params, a: Bytes, b: Bytes, c: Bytes, i: nat, j: nat)
    requires Valid(p) && i <= |Chunks(gear, p, a + c)| && j <= |Chunks(gear, p, b + c)|
    requires Flatten(Chunks(gear, p, a + c)[..i]) == a && Flatten(Chunks(gear, p, b + c)[..j]) == b
    ensures Chunks(gear, p, a + c)[i..] == Chunks(gear, p, b + c)[j..]
  {
    ChunksFromBoundary(gear, p, a, c, i);
    ChunksFromBoundary(gear, p, b, c, j);
  }
}
