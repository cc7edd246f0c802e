/** Deduplication accounting over the chunks of several images, in four scopes. */
module Dedup {
  import opened Chunker
  import opened Sums

  datatype ImageSpec = ImageSpec(name: string, account: string, principal: string, blocks: seq<Bytes>)

  /** One chunk occurrence. */
  datatype Occurrence = Occurrence(account: string, principal: string, digest: string, size: nat)

  datatype Scope = Global | Account | Principal

  /** The dictionary key of an occurrence in a scope. */
  function KeyOf(scope: Scope, o: Occurrence): seq<string> {
    match scope
    case Global => [o.digest]
    case Account => [o.account, o.digest]
    case Principal => [o.account, o.principal, o.digest]
  }

  type Seen = map<seq<string>, nat>

  /** The dictionary a scope has built after these occurrences: first size wins. */
  function SeenIn(scope: Scope, occ: seq<Occurrence>): Seen {
    if occ == [] then map[]
    else
      var rest, last := SeenIn(scope, occ[..|occ| - 1]), occ[|occ| - 1];
      if KeyOf(scope, last) in rest then rest else rest[KeyOf(scope, last) := last.size]
  }

  function Logical(occ: seq<Occurrence>): nat {
    if occ == [] then 0 else Logical(occ[..|occ| - 1]) + occ[|occ| - 1].size
  }

  ghost function Stored(scope: Scope, occ: seq<Occurrence>): nat {
    Total(SeenIn(scope, occ))
  }

  // ------------------------------------------------------------- the dictionaries

  /** Equal digests mean equal sizes; a collision-free digest gives this. */
  ghost predicate Consistent(occ: seq<Occurrence>) {
    forall i, j :: 0 <= i < |occ| && 0 <= j < |occ| && occ[i].digest == occ[j].digest ==> occ[i].size == occ[j].size
  }

  lemma {:induction false} SeenHolds(scope: Scope, occ: seq<Occurrence>, i: nat)
    requires i < |occ|
    ensures KeyOf(scope, occ[i]) in SeenIn(scope, occ)
    decreases |occ|
  {
    if i < |occ| - 1 {
      SeenHolds(scope, occ[..|occ| - 1], i);
    }
  }

  lemma {:induction false} SeenOccurred(scope: Scope, occ: seq<Occurrence>, k: seq<string>) returns (i: nat)
    requires k in SeenIn(scope, occ)
    ensures i < |occ| && KeyOf(scope, occ[i]) == k && occ[i].size == SeenIn(scope, occ)[k]
    decreases |occ|
  {
    var n := |occ| - 1;
    if k in SeenIn(scope, occ[..n]) {
      i := SeenOccurred(scope, occ[..n], k);
    } else {
      i := n;
    }
  }

  /** A dictionary holds exactly the keys that occurred, each with the size of an occurrence. */
  lemma SeenExactly(scope: Scope, occ: seq<Occurrence>)
    ensures forall i :: 0 <= i < |occ| ==> KeyOf(scope, occ[i]) in SeenIn(scope, occ)
    ensures forall k :: k in SeenIn(scope, occ) ==>
              exists i :: 0 <= i < |occ| && KeyOf(scope, occ[i]) == k && occ[i].size == SeenIn(scope, occ)[k]
  {
    forall i | 0 <= i < |occ| ensures KeyOf(scope, occ[i]) in SeenIn(scope, occ) {
      SeenHolds(scope, occ, i);
    }
    forall k | k in SeenIn(scope, occ)
      ensures exists i :: 0 <= i < |occ| && KeyOf(scope, occ[i]) == k && occ[i].size == SeenIn(scope, occ)[k]
    {
      var i := SeenOccurred(scope, occ, k);
    }
  }

  lemma SeenSize(scope: Scope, occ: seq<Occurrence>, i: nat)
    requires Consistent(occ) && i < |occ|
    ensures KeyOf(scope, occ[i]) in SeenIn(scope, occ) && SeenIn(scope, occ)[KeyOf(scope, occ[i])] == occ[i].size
  {
    SeenExactly(scope, occ);
    var k := KeyOf(scope, occ[i]);
    var j :| 0 <= j < |occ| && KeyOf(scope, occ[j]) == k && occ[j].size == SeenIn(scope, occ)[k];
    assert k[|k| - 1] == occ[i].digest && KeyOf(scope, occ[j])[|k| - 1] == occ[j].digest;
  }

  /** A finer scope tells more occurrences apart. */
  predicate Finer(fine: Scope, coarse: Scope) {
    (fine == Account && coarse == Global) || (fine == Principal && coarse == Account)
  }

  function Coarsen(coarse: Scope, k: seq<string>): seq<string>
    requires |k| == if coarse == Global then 2 else 3
  {
    if coarse == Global then [k[1]] else [k[0], k[2]]
  }

  /** An occurrence that accounts for a dictionary entry. */
  ghost function Source(scope: Scope, occ: seq<Occurrence>, k: seq<string>): (i: nat)
    requires k in SeenIn(scope, occ)
    ensures i < |occ| && KeyOf(scope, occ[i]) == k && occ[i].size == SeenIn(scope, occ)[k]
  {
    SeenExactly(scope, occ);
    var i :| 0 <= i < |occ| && KeyOf(scope, occ[i]) == k && occ[i].size == SeenIn(scope, occ)[k];
    i
  }

  lemma RefinedEntry(fine: Scope, coarse: Scope, occ: seq<Occurrence>, k: seq<string>)
    requires Finer(fine, coarse) && Consistent(occ) && k in SeenIn(coarse, occ)
    ensures var f := KeyOf(fine, occ[Source(coarse, occ, k)]);
            f in SeenIn(fine, occ) && SeenIn(fine, occ)[f] == SeenIn(coarse, occ)[k] && Coarsen(coarse, f) == k
  {
    SeenSize(fine, occ, Source(coarse, occ, k));
  }

  lemma CoarserStoresNoMore(fine: Scope, coarse: Scope, occ: seq<Occurrence>)
    requires Finer(fine, coarse) && Consistent(occ)
    ensures Stored(coarse, occ) <= Stored(fine, occ)
  {
    var small, big := SeenIn(coarse, occ), SeenIn(fine, occ);
    var pick := map k | k in small :: KeyOf(fine, occ[Source(coarse, occ, k)]);
    forall k | k in small ensures pick[k] in big && big[pick[k]] == small[k] {
      RefinedEntry(fine, coarse, occ, k);
    }
    forall k, l | k in small && l in small && pick[k] == pick[l] ensures k == l {
      RefinedEntry(fine, coarse, occ, k);
      RefinedEntry(fine, coarse, occ, l);
    }
    TotalProject(small, big, pick);
  }

  lemma {:induction false} StoredWithinLogical(scope: Scope, occ: seq<Occurrence>)
    ensures Stored(scope, occ) <= Logical(occ)
  {
    if occ != [] {
      var n := |occ| - 1;
      StoredWithinLogical(scope, occ[..n]);
      var k := KeyOf(scope, occ[n]);
      if k !in SeenIn(scope, occ[..n]) {
        TotalAdd(SeenIn(scope, occ[..n]), k, occ[n].size);
      }
    }
  }

  /** The four scopes order: global <= account <= principal <= logical. */
  lemma ScopesAreOrdered(occ: seq<Occurrence>)
    requires Consistent(occ)
    ensures Stored(Global, occ) <= Stored(Account, occ) <= Stored(Principal, occ) <= Logical(occ)
  {
    CoarserStoresNoMore(Account, Global, occ);
    CoarserStoresNoMore(Principal, Account, occ);
    StoredWithinLogical(Principal, occ);
  }

  // ------------------------------------------------------------ images and their order

  /** The occurrences of one image. */
  function Tagged(spec: ImageSpec, records: seq<Record>): seq<Occurrence> {
    seq(|records|, i requires 0 <= i < |records| => Occurrence(spec.account, spec.principal, records[i].digest, records[i].size))
  }

  function ImageOccurrences(gear: Byte -> nat, digest: Bytes -> string, p: Params, spec: ImageSpec): seq<Occurrence>
    requires Valid(p)
  {
    Tagged(spec, Records(digest, Chunks(gear, p, Received(spec.blocks))))
  }

  function Occurrences(gear: Byte -> nat, digest: Bytes -> string, p: Params, specs: seq<ImageSpec>): seq<Occurrence>
    requires Valid(p)
  {
    if specs == [] then []
    else Occurrences(gear, digest, p, specs[..|specs| - 1]) + ImageOccurrences(gear, digest, p, specs[|specs| - 1])
  }

  ghost predicate CollisionFree(digest: Bytes -> string) {
    forall a, b :: digest(a) == digest(b) ==> a == b
  }

  /** Every occurrence stems from a chunk of some image. */
  ghost predicate Stems(gear: Byte -> nat, digest: Bytes -> string, p: Params, specs: seq<ImageSpec>, o: Occurrence)
    requires Valid(p)
  {
    exists spec, c :: spec in specs && c in Chunks(gear, p, Received(spec.blocks))
                      && o == Occurrence(spec.account, spec.principal, digest(c), |c|)
  }

  lemma ImageStems(gear: Byte -> nat, digest: Bytes -> string, p: Params, spec: ImageSpec, o: Occurrence)
    requires Valid(p)
    ensures o in ImageOccurrences(gear, digest, p, spec) <==> Stems(gear, digest, p, [spec], o)
  {
    var chunks := Chunks(gear, p, Received(spec.blocks));
    var occ := ImageOccurrences(gear, digest, p, spec);
    if o in occ {
      var i :| 0 <= i < |occ| && occ[i] == o;
      assert spec in [spec] && chunks[i] in chunks;
    }
    if Stems(gear, digest, p, [spec], o) {
      var c :| c in chunks && o == Occurrence(spec.account, spec.principal, digest(c), |c|);
      var i :| 0 <= i < |chunks| && chunks[i] == c;
      assert occ[i] == o;
    }
  }

  /** One more image adds what stems from it. */
  lemma StemsOneMore(gear: Byte -> nat, digest: Bytes -> string, p: Params, specs: seq<ImageSpec>, last: ImageSpec, o: Occurrence)
    requires Valid(p)
    ensures Stems(gear, digest, p, specs + [last], o)
       <==> Stems(gear, digest, p, specs, o) || Stems(gear, digest, p, [last], o)
  {
    if spec, c :| spec in specs + [last] && c in Chunks(gear, p, Received(spec.blocks))
                  && o == Occurrence(spec.account, spec.principal, digest(c), |c|) {
      assert spec in specs || spec in [last];
    }
  }

  lemma {:induction false} OccurrencesStem(gear: Byte -> nat, digest: Bytes -> string, p: Params, specs: seq<ImageSpec>, o: Occurrence)
    requires Valid(p)
    ensures o in Occurrences(gear, digest, p, specs) <==> Stems(gear, digest, p, specs, o)
  {
    if specs != [] {
      var n := |specs| - 1;
      OccurrencesStem(gear, digest, p, specs[..n], o);
      ImageStems(gear, digest, p, specs[n], o);
      StemsOneMore(gear, digest, p, specs[..n], specs[n], o);
      assert specs == specs[..n] + [specs[n]];
    }
  }

  lemma DigestsAreConsistent(gear: Byte -> nat, digest: Bytes -> string, p: Params, specs: seq<ImageSpec>)
    requires Valid(p) && CollisionFree(digest)
    ensures Consistent(Occurrences(gear, digest, p, specs))
  {
    var occ := Occurrences(gear, digest, p, specs);
    forall i, j | 0 <= i < |occ| && 0 <= j < |occ| && occ[i].digest == occ[j].digest ensures occ[i].size == occ[j].size {
      OccurrencesStem(gear, digest, p, specs, occ[i]);
      OccurrencesStem(gear, digest, p, specs, occ[j]);
    }
  }

  /** Dictionaries over the same occurrences in any order are the same. */
  lemma SameOccurrencesSameSeen(scope: Scope, a: seq<Occurrence>, b: seq<Occurrence>)
    requires Consistent(a) && Consistent(b)
    requires forall o :: o in a <==> o in b
    ensures SeenIn(scope, a) == SeenIn(scope, b)
  {
    forall k | k in SeenIn(scope, a) ensures k in SeenIn(scope, b) && SeenIn(scope, b)[k] == SeenIn(scope, a)[k] {
      SeenContained(scope, a, b, k);
    }
    forall k | k in SeenIn(scope, b) ensures k in SeenIn(scope, a) {
      SeenContained(scope, b, a, k);
    }
  }

  lemma SeenContained(scope: Scope, a: seq<Occurrence>, b: seq<Occurrence>, k: seq<string>)
    requires Consistent(a) && Consistent(b) && k in SeenIn(scope, a)
    requires forall o :: o in a ==> o in b
    ensures k in SeenIn(scope, b) && SeenIn(scope, b)[k] == SeenIn(scope, a)[k]
  {
    var o := a[Source(scope, a, k)];
    assert o in a;
    assert o in b;
    var j :| 0 <= j < |b| && b[j] == o;
    SeenSize(scope, b, j);
  }

  /** Stored bytes of every scope do not depend on the order of the images. */
  lemma StoredIgnoresOrder(gear: Byte -> nat, digest: Bytes -> string, p: Params, specs: seq<ImageSpec>, specs': seq<ImageSpec>, scope: Scope)
    requires Valid(p) && CollisionFree(digest) && multiset(specs) == multiset(specs')
    ensures SeenIn(scope, Occurrences(gear, digest, p, specs)) == SeenIn(scope, Occurrences(gear, digest, p, specs'))
  {
    var a, b := Occurrences(gear, digest, p, specs), Occurrences(gear, digest, p, specs');
    DigestsAreConsistent(gear, digest, p, specs);
    DigestsAreConsistent(gear, digest, p, specs');
    forall spec ensures spec in specs <==> spec in specs' {
      assert spec in multiset(specs) <==> spec in multiset(specs');
    }
    forall o ensures o in a <==> o in b {
      OccurrencesStem(gear, digest, p, specs, o);
      OccurrencesStem(gear, digest, p, specs', o);
    }
    SameOccurrencesSameSeen(scope, a, b);
  }

  // -------------------------------------------------------------- logical bytes

  lemma {:induction false} LogicalConcat(a: seq<Occurrence>, b: seq<Occurrence>)
    ensures Logical(a + b) == Logical(a) + Logical(b)
  {
    if b == [] {
      assert a + b == a;
    } else {
      var n := |b| - 1;
      LogicalConcat(a, b[..n]);
      assert (a + b)[..|a + b| - 1] == a + b[..n];
    }
  }

  lemma {:induction false} LogicalOfChunks(spec: ImageSpec, digest: Bytes -> string, chunks: seq<Bytes>)
    ensures Logical(Tagged(spec, Records(digest, chunks))) == |Flatten(chunks)|
  {
    var occ := Tagged(spec, Records(digest, chunks));
    if chunks != [] {
      var tail := Tagged(spec, Records(digest, chunks[1..]));
      LogicalOfChunks(spec, digest, chunks[1..]);
      assert occ == [occ[0]] + tail;
      LogicalConcat([occ[0]], tail);
      assert [occ[0]][..0] == [];
    }
  }

  /** The bytes of all images. */
  function ImageBytes(specs: seq<ImageSpec>): nat {
    if specs == [] then 0 else ImageBytes(specs[..|specs| - 1]) + |Received(specs[|specs| - 1].blocks)|
  }

  /** Logical bytes are exactly the bytes of the images: chunking loses and repeats nothing. */
  lemma {:induction false} LogicalIsImageBytes(gear: Byte -> nat, digest: Bytes -> string, p: Params, specs: seq<ImageSpec>)
    requires Valid(p)
    ensures Logical(Occurrences(gear, digest, p, specs)) == ImageBytes(specs)
  {
    if specs != [] {
      var n := |specs| - 1;
      var image := Received(specs[n].blocks);
      LogicalIsImageBytes(gear, digest, p, specs[..n]);
      LogicalConcat(Occurrences(gear, digest, p, specs[..n]), ImageOccurrences(gear, digest, p, specs[n]));
      LogicalOfChunks(specs[n], digest, Chunks(gear, p, image));
      ChunksPartition(gear, p, image);
    }
  }

  // ----------------------------------------------------------------- the measurement

  datatype NewBytes = NewBytes(global: nat, account: nat, principal: nat)
  {
    function In(scope: Scope): nat {
      match scope
      case Global => global
      case Account => account
      case Principal => principal
    }
  }

  datatype ImageResult = ImageResult(name: string, logical: nat, chunks: nat, unique: nat, added: NewBytes)
  datatype ScopeSummary = ScopeSummary(chunks: nat, stored: nat, saved: int)
  datatype Report = Report(
    logical: nat,
    images: seq<ImageResult>,
    perImage: ScopeSummary,
    principal: ScopeSummary,
    account: ScopeSummary,
    global: ScopeSummary)

  /** What one image adds to a scope after the images before it. */
  ghost function Added(scope: Scope, before: seq<Occurrence>, image: seq<Occurrence>): int {
    Stored(scope, before + image) - Stored(scope, before)
  }

  function SumAdded(images: seq<ImageResult>, scope: Scope): nat {
    if images == [] then 0 else SumAdded(images[..|images| - 1], scope) + images[|images| - 1].added.In(scope)
  }

  /** The three dictionaries. */
  datatype Books = Books(global: Seen, account: Seen, principal: Seen)
  {
    function In(scope: Scope): Seen {
      match scope
      case Global => global
      case Account => account
      case Principal => principal
    }
  }

  ghost predicate Kept(books: Books, occ: seq<Occurrence>) {
    forall scope :: books.In(scope) == SeenIn(scope, occ)
  }

  ghost predicate Counts(added: NewBytes, from: Books, to: Books) {
    forall scope :: added.In(scope) == Total(to.In(scope)) - Total(from.In(scope))
  }

  /** Enter one occurrence into a scope's dictionary, counting its bytes if it is new. */
  method Enter(scope: Scope, ghost occ: seq<Occurrence>, o: Occurrence, seen: Seen, added: nat) returns (seen': Seen, added': nat)
    requires seen == SeenIn(scope, occ)
    ensures seen' == SeenIn(scope, occ + [o])
    ensures added' == added + Total(seen') - Total(seen)
  {
    assert (occ + [o])[..|occ|] == occ;
    seen', added' := seen, added;
    var key := KeyOf(scope, o);
    if key !in seen {
      TotalAdd(seen, key, o.size);
      seen' := seen[key := o.size];
      added' := added + o.size;
    }
  }

  method EnterAll(ghost from: Books, ghost occ: seq<Occurrence>, o: Occurrence, books: Books, added: NewBytes)
    returns (books': Books, added': NewBytes)
    requires Kept(books, occ) && Counts(added, from, books)
    ensures Kept(books', occ + [o]) && Counts(added', from, books')
  {
    assert books.In(Global) == books.global && books.In(Account) == books.account && books.In(Principal) == books.principal;
    assert added.In(Global) == added.global && added.In(Account) == added.account && added.In(Principal) == added.principal;
    var g, x := Enter(Global, occ, o, books.global, added.global);
    var a, y := Enter(Account, occ, o, books.account, added.account);
    var r, z := Enter(Principal, occ, o, books.principal, added.principal);
    books', added' := Books(g, a, r), NewBytes(x, y, z);
    forall scope ensures books'.In(scope) == SeenIn(scope, occ + [o])
                         && added'.In(scope) == Total(books'.In(scope)) - Total(from.In(scope))
    {
      match scope case Global => case Account => case Principal =>
    }
  }

  /** An image's own figures, and what it added to each scope after the images before it. */
  ghost predicate Figures(result: ImageResult, name: string, before: seq<Occurrence>, image: seq<Occurrence>) {
    && result.name == name && result.logical == Logical(image) && result.chunks == |image|
    && result.unique == |set o | o in image :: o.digest|
    && forall scope :: result.added.In(scope) == Added(scope, before, image)
  }

  /** One image: its own figures, and the dictionaries carried on. */
  method MeasureImage(name: string, image: seq<Occurrence>, ghost before: seq<Occurrence>, books: Books)
    returns (result: ImageResult, books': Books)
    requires Kept(books, before)
    ensures Kept(books', before + image)
    ensures Figures(result, name, before, image)
  {
    books' := books;
    var added, bytes := NewBytes(0, 0, 0), 0;
    var unique: set<string> := {};
    assert before + image[..0] == before;
    assert Counts(added, books, books) by {
      forall scope ensures added.In(scope) == 0 { match scope case Global => case Account => case Principal => }
    }
    for j := 0 to |image|
      invariant Kept(books', before + image[..j]) && Counts(added, books, books')
      invariant bytes == Logical(image[..j])
      invariant unique == set o | o in image[..j] :: o.digest
    {
      var o := image[j];
      assert before + image[..j + 1] == (before + image[..j]) + [o];
      assert image[..j + 1] == image[..j] + [o] && image[..j + 1][..j] == image[..j];
      books', added := EnterAll(books, before + image[..j], o, books', added);
      bytes := bytes + o.size;
      unique := unique + {o.digest};
    }
    assert image[..|image|] == image;
    result := ImageResult(name, bytes, |image|, |unique|, added);
  }

  method Summarize(logical: nat, seen: Seen) returns (r: ScopeSummary)
    ensures r == ScopeSummary(|seen|, Total(seen), logical - Total(seen))
  {
    var stored := SumValues(seen);
    r := ScopeSummary(|seen|, stored, logical - stored);
  }

  ghost function SummaryOf(scope: Scope, occ: seq<Occurrence>, logical: nat): ScopeSummary {
    ScopeSummary(|SeenIn(scope, occ)|, Stored(scope, occ), logical - Stored(scope, occ))
  }

  /** The report's totals are those of all the occurrences, and per scope the bytes charged to
      the images add up to the stored bytes. */
  ghost predicate Balanced(r: Report, occ: seq<Occurrence>, logical: nat) {
    && r.logical == logical
    && r.perImage == ScopeSummary(|occ|, logical, 0)
    && r.principal == SummaryOf(Principal, occ, logical)
    && r.account == SummaryOf(Account, occ, logical)
    && r.global == SummaryOf(Global, occ, logical)
    && forall scope :: SumAdded(r.images, scope) == Stored(scope, occ)
  }

  /** The report lists every image in order, each with its own figures. */
  ghost predicate Attributed(gear: Byte -> nat, digest: Bytes -> string, p: Params, specs: seq<ImageSpec>, images: seq<ImageResult>)
    requires Valid(p)
  {
    && |images| == |specs|
    && forall i {:trigger images[i]} :: 0 <= i < |specs| ==>
         Figures(images[i], specs[i].name, Occurrences(gear, digest, p, specs[..i]), ImageOccurrences(gear, digest, p, specs[i]))
  }

  lemma AttributedLast(gear: Byte -> nat, digest: Bytes -> string, p: Params, specs: seq<ImageSpec>, n: nat, images: seq<ImageResult>, result: ImageResult)
    requires Valid(p) && n < |specs| && Attributed(gear, digest, p, specs[..n], images)
    requires Figures(result, specs[n].name, Occurrences(gear, digest, p, specs[..n]), ImageOccurrences(gear, digest, p, specs[n]))
    ensures Attributed(gear, digest, p, specs[..n + 1], images + [result])
  {
    var more := specs[..n + 1];
    forall i | 0 <= i < |more|
      ensures Figures((images + [result])[i], more[i].name, Occurrences(gear, digest, p, more[..i]), ImageOccurrences(gear, digest, p, more[i]))
    {
      assert more[..i] == specs[..i];
      if i < n {
        assert specs[..n][..i] == specs[..i];
        assert Figures(images[i], specs[..n][i].name, Occurrences(gear, digest, p, specs[..n][..i]), ImageOccurrences(gear, digest, p, specs[..n][i]));
      }
    }
  }

  lemma SumAddedLast(images: seq<ImageResult>, result: ImageResult, before: seq<Occurrence>, image: seq<Occurrence>)
    requires forall scope :: SumAdded(images, scope) == Stored(scope, before)
    requires forall scope :: result.added.In(scope) == Added(scope, before, image)
    ensures forall scope :: SumAdded(images + [result], scope) == Stored(scope, before + image)
  {
    assert (images + [result])[..|images|] == images;
  }

  /** `measure`: totals of the four scopes, and per image what it added to each of them. */
  method Measure(gear: Byte -> nat, digest: Bytes -> string, p: Params, readSize: int, specs: seq<ImageSpec>)
    returns (r: Result<Report>)
    ensures r.Ok? ==> Valid(p) && Balanced(r.value, Occurrences(gear, digest, p, specs), ImageBytes(specs))
    ensures r.Ok? ==> Attributed(gear, digest, p, specs, r.value.images)
    ensures r.Err? <==> !Valid(p) || (readSize <= 0 && specs != [])
  {
    if !Valid(p) {
      return Err("invalid chunking parameters");
    }
    var books := Books(map[], map[], map[]);
    var images: seq<ImageResult> := [];
    var logical, total := 0, 0;
    for i := 0 to |specs|
      invariant readSize > 0 || i == 0
      invariant Kept(books, Occurrences(gear, digest, p, specs[..i]))
      invariant logical == Logical(Occurrences(gear, digest, p, specs[..i]))
      invariant total == |Occurrences(gear, digest, p, specs[..i])|
      invariant forall scope :: SumAdded(images, scope) == Stored(scope, Occurrences(gear, digest, p, specs[..i]))
      invariant Attributed(gear, digest, p, specs[..i], images)
    {
      var records := IterChunkRecords(gear, digest, p, readSize, specs[i].blocks);
      if records.Err? {
        return Err(records.reason);
      }
      ghost var before := Occurrences(gear, digest, p, specs[..i]);
      assert specs[..i + 1][..i] == specs[..i];
      var image := Tagged(specs[i], records.value);
      var result;
      result, books := MeasureImage(specs[i].name, image, before, books);
      LogicalConcat(before, image);
      SumAddedLast(images, result, before, image);
      AttributedLast(gear, digest, p, specs, i, images, result);
      images := images + [result];
      logical, total := logical + result.logical, total + result.chunks;
    }
    assert specs[..|specs|] == specs;
    LogicalIsImageBytes(gear, digest, p, specs);
    assert books.In(Global) == books.global && books.In(Account) == books.account && books.In(Principal) == books.principal;
    var principal := Summarize(logical, books.principal);
    var account := Summarize(logical, books.account);
    var global := Summarize(logical, books.global);
    return Ok(Report(logical, images, ScopeSummary(total, logical, 0), principal, account, global));
  }

  // ------------------------------------------------------- totals ignore the order

  function SumOver(specs: seq<ImageSpec>, weight: ImageSpec -> nat): nat {
    if specs == [] then 0 else SumOver(specs[..|specs| - 1], weight) + weight(specs[|specs| - 1])
  }

  lemma {:induction false} SumOverWithout(specs: seq<ImageSpec>, weight: ImageSpec -> nat, i: nat)
    requires i < |specs|
    ensures SumOver(specs, weight) == SumOver(specs[..i] + specs[i + 1..], weight) + weight(specs[i])
  {
    var n := |specs| - 1;
    var rest := specs[..i] + specs[i + 1..];
    if i == n {
      assert rest == specs[..n];
    } else {
      SumOverWithout(specs[..n], weight, i);
      assert rest[..|rest| - 1] == specs[..n][..i] + specs[..n][i + 1..];
    }
  }

  lemma {:induction false} SumOverPermuted(a: seq<ImageSpec>, b: seq<ImageSpec>, weight: ImageSpec -> nat)
    requires multiset(a) == multiset(b)
    ensures SumOver(a, weight) == SumOver(b, weight)
    decreases |a|
  {
    if a == [] {
      assert |multiset(b)| == 0;
    } else {
      var n := |a| - 1;
      assert a == a[..n] + [a[n]];
      assert a[n] in multiset(b);
      var i :| 0 <= i < |b| && b[i] == a[n];
      var rest := b[..i] + b[i + 1..];
      assert b == b[..i] + [b[i]] + b[i + 1..];
      assert multiset(rest) == multiset(b) - multiset{b[i]};
      assert multiset(a[..n]) == multiset(a) - multiset{a[n]};
      SumOverPermuted(a[..n], rest, weight);
      SumOverWithout(b, weight, i);
    }
  }

  lemma {:induction false} TotalsAreSums(gear: Byte -> nat, digest: Bytes -> string, p: Params, specs: seq<ImageSpec>)
    requires Valid(p)
    ensures ImageBytes(specs) == SumOver(specs, (spec: ImageSpec) => |Received(spec.blocks)|)
    ensures |Occurrences(gear, digest, p, specs)| == SumOver(specs, (spec: ImageSpec) => |Chunks(gear, p, Received(spec.blocks))|)
  {
    if specs != [] { TotalsAreSums(gear, digest, p, specs[..|specs| - 1]); }
  }

  lemma SizesIgnoreOrder(gear: Byte -> nat, digest: Bytes -> string, p: Params, specs: seq<ImageSpec>, specs': seq<ImageSpec>)
    requires Valid(p) && multiset(specs) == multiset(specs')
    ensures ImageBytes(specs) == ImageBytes(specs')
    ensures |Occurrences(gear, digest, p, specs)| == |Occurrences(gear, digest, p, specs')|
  {
    TotalsAreSums(gear, digest, p, specs);
    TotalsAreSums(gear, digest, p, specs');
    SumOverPermuted(specs, specs', (spec: ImageSpec) => |Received(spec.blocks)|);
    SumOverPermuted(specs, specs', (spec: ImageSpec) => |Chunks(gear, p, Received(spec.blocks))|);
  }

  /** Every aggregate figure of the report is the same for every order of the images. */
  lemma AggregatesIgnoreOrder(gear: Byte -> nat, digest: Bytes -> string, p: Params, specs: seq<ImageSpec>, specs': seq<ImageSpec>, r: Report, r': Report)
    requires Valid(p) && CollisionFree(digest) && multiset(specs) == multiset(specs')
    requires Balanced(r, Occurrences(gear, digest, p, specs), ImageBytes(specs))
    requires Balanced(r', Occurrences(gear, digest, p, specs'), ImageBytes(specs'))
    ensures r.logical == r'.logical && r.perImage == r'.perImage
    ensures r.principal == r'.principal && r.account == r'.account && r.global == r'.global
  {
    SizesIgnoreOrder(gear, digest, p, specs, specs');
    StoredIgnoresOrder(gear, digest, p, specs, specs', Principal);
    StoredIgnoresOrder(gear, digest, p, specs, specs', Account);
    StoredIgnoresOrder(gear, digest, p, specs, specs', Global);
  }

  /** With a collision-free digest the report's scopes order, so no scope saves a negative
      number of bytes. */
  lemma ReportIsOrdered(gear: Byte -> nat, digest: Bytes -> string, p: Params, specs: seq<ImageSpec>, r: Report)
    requires Valid(p) && CollisionFree(digest)
    requires Balanced(r, Occurrences(gear, digest, p, specs), ImageBytes(specs))
    ensures r.global.stored <= r.account.stored <= r.principal.stored <= r.logical
    ensures 0 == r.perImage.saved <= r.principal.saved <= r.account.saved <= r.global.saved
  {
    DigestsAreConsistent(gear, digest, p, specs);
    ScopesAreOrdered(Occurrences(gear, digest, p, specs));
    LogicalIsImageBytes(gear, digest, p, specs);
  }

  /** An image whose chunks are all known adds nothing. */
  lemma {:induction false} KnownAddsNothing(scope: Scope, before: seq<Occurrence>, image: seq<Occurrence>)
    requires forall i :: 0 <= i < |image| ==> KeyOf(scope, image[i]) in SeenIn(scope, before)
    ensures SeenIn(scope, before + image) == SeenIn(scope, before) && Added(scope, before, image) == 0
    decreases |image|
  {
    if image == [] {
      assert before + image == before;
    } else {
      var n := |image| - 1;
      KnownAddsNothing(scope, before, image[..n]);
      assert (before + image)[..|before + image| - 1] == before + image[..n];
    }
  }

  /** What an image adds does depend on its place: of two images with the same content, whatever
      their accounts, the one that comes first is charged for all of it and the other for nothing. */
  lemma AttributionFollowsOrder(gear: Byte -> nat, digest: Bytes -> string, p: Params, first: ImageSpec, second: ImageSpec)
    requires Valid(p) && Received(first.blocks) == Received(second.blocks)
    ensures var a, b := ImageOccurrences(gear, digest, p, first), ImageOccurrences(gear, digest, p, second);
            Added(Global, [], a) == Stored(Global, a) && Added(Global, a, b) == 0
  {
    var a, b := ImageOccurrences(gear, digest, p, first), ImageOccurrences(gear, digest, p, second);
    assert [] + a == a;
    forall i | 0 <= i < |b| ensures KeyOf(Global, b[i]) in SeenIn(Global, a) {
      SeenHolds(Global, a, i);
    }
    KnownAddsNothing(Global, a, b);
  }
}
