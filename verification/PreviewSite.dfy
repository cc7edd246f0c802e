/** The fixture-preview publisher's aggregate: what a stored state must satisfy to be read back,
    how it is pruned, extended and written, and what survives each of these. */
module PreviewSite {
  import opened Text
  import opened Sums
  import opened PreviewPaths

  const REPOSITORY := "jomcgi-org/homelab"
  const MARKER := "fixture-preview-state-v1"
  const TTL: int := 14 * 24 * 60 * 60
  const MAX_FILE: int := 10 * 1024 * 1024
  const MAX_SITE: int := 200 * 1024 * 1024
  const MAX_SITE_FILES: int := 10000

  datatype Entry = Entry(sha: string, updatedAt: int, runId: nat)

  type Previews = map<string, Entry>

  datatype State = State(schema: string, repository: string, pagesUrl: string, previews: Previews)

  type Byte = b: int | 0 <= b < 256

  /** A stored file: bytes from a build, or one of the files the publisher generates. */
  datatype Content =
    | Asset(data: seq<Byte>)
    | Forward(number: string, sha: string)
    | Listing(previews: Previews)
    | Empty
    | Document(state: State)

  type Files = map<string, Content>

  datatype Result<+T> = Ok(value: T) | Unsafe

  function EmptyState(url: string): State {
    State(MARKER, REPOSITORY, url, map[])
  }

  // ---------------------------------------------------------------------- sizes

  /** Bytes of one `<li>` of the listing page. */
  function ListingWeight(n: string, e: Entry): nat {
    46 + 2 * |n| + Min(12, |e.sha|)
  }

  function Digits(i: int): nat {
    if i >= 0 then |Decimal(i)| else 1 + |Decimal(-i)|
  }

  /** Bytes of one indented member of the state document's `previews` object. */
  function DocumentWeight(n: string, e: Entry): nat {
    73 + |n| + |e.sha| + Digits(e.updatedAt) + Digits(e.runId)
  }

  function ListingWeights(previews: Previews): map<string, nat> {
    map n | n in previews :: ListingWeight(n, previews[n])
  }

  function DocumentWeights(previews: Previews): map<string, nat> {
    map n | n in previews :: DocumentWeight(n, previews[n])
  }

  ghost function ListingSize(previews: Previews): nat {
    576 + Total(ListingWeights(previews))
  }

  ghost function DocumentSize(s: State): nat {
    76 + |s.schema| + |s.repository| + |s.pagesUrl|
    + (if s.previews == map[] then 0 else 2 + Total(DocumentWeights(s.previews)))
  }

  /** The length of a file in bytes. */
  ghost function Size(c: Content): nat {
    match c
    case Asset(data) => |data|
    case Forward(number, sha) => 541 + |number| + 2 * |sha|
    case Listing(previews) => ListingSize(previews)
    case Empty => 0
    case Document(state) => DocumentSize(state)
  }

  ghost function Sizes(files: Files): map<string, nat> {
    map p | p in files :: Size(files[p])
  }

  // -------------------------------------------------------------------- loading

  predicate WellNamed(previews: Previews) {
    forall n :: n in previews ==> IsNumber(n) && IsSha(previews[n].sha) && previews[n].updatedAt > 0
  }

  predicate ValidState(s: State, url: string) {
    s.schema == MARKER && s.repository == REPOSITORY && s.pagesUrl == url && WellNamed(s.previews)
  }

  /** A file below `site/pr/` belongs to a listed preview, and to its current build unless it is
      the forwarding page. */
  predicate Owned(previews: Previews, path: string)
    requires StartsWith(path, ROOT)
  {
    && NumberOf(path) in previews
    && ((TailOf(path).Some? && ForwardTail(TailOf(path).value))
        || exists n :: n in previews && StartsWith(path, ShaPrefix(n, previews[n].sha)))
  }

  /** Only known files, no orphans, and an index page for every listed preview. */
  predicate Tidy(previews: Previews, files: Files) {
    && (forall p :: p in files ==> IsKnown(p))
    && (forall p :: p in files && StartsWith(p, ROOT) ==> Owned(previews, p))
    && (forall n :: n in previews ==> IndexPath(n, previews[n].sha) in files)
  }

  /** The checks a stored tree passes before it is used. */
  ghost predicate Loads(files: Files, url: string) {
    && |files| <= MAX_SITE_FILES
    && (forall p :: p in files ==> Size(files[p]) <= MAX_FILE)
    && Total(Sizes(files)) <= MAX_SITE
    && STATE in files && files[STATE].Document? && ValidState(files[STATE].state, url)
    && Tidy(files[STATE].state.previews, files)
  }

  // ---------------------------------------------------------------- pull requests

  datatype Pull = Pull(number: int, baseRepository: string, baseRef: string, state: string, headSha: string)

  datatype Standing = Good | Stale | Refused

  function ValidatePr(pr: Pull, number: int, sha: Option<string>): Standing {
    if pr.number <= 0 || pr.number != number || pr.baseRepository != REPOSITORY || pr.baseRef == "" then Refused
    else if sha.Some? && (pr.state !in {"open", "closed"} || !IsSha(pr.headSha)) then Refused
    else if sha.Some? && (pr.state != "open" || pr.headSha != sha.value) then Stale
    else if pr.baseRef != "main" then Refused
    else Good
  }

  type Pulls = map<string, Pull>

  /** Every listed pull request answers to its number and still targets main. */
  predicate Trusted(previews: Previews, prs: Pulls)
    requires forall n :: n in previews ==> n in prs
  {
    forall n :: n in previews ==> IsNumber(n) && ValidatePr(prs[n], Value(n), None) == Good
  }

  predicate Gone(pr: Pull, entry: Entry, now: int) {
    pr.state != "open" || now - entry.updatedAt >= TTL
  }

  function Dropped(previews: Previews, prs: Pulls, now: int): set<string>
    requires forall n :: n in previews ==> n in prs
  {
    set n | n in previews && Gone(prs[n], previews[n], now)
  }

  predicate Below(path: string, numbers: set<string>) {
    exists n :: n in numbers && StartsWith(path, PrPrefix(n))
  }

  /** The files that are not below the directory of one of `numbers`. */
  function Without(files: Files, numbers: set<string>): Files {
    map p | p in files && !Below(p, numbers) :: files[p]
  }

  // --------------------------------------------------------------------- adding

  datatype Candidate = Candidate(number: nat, sha: string, assets: Files, runId: nat)

  /** What reading the build archive guarantees: static names, bounded files, an index page. */
  predicate ValidAssets(assets: Files) {
    && "index.html" in assets
    && forall a :: a in assets ==> IsStatic(a) && assets[a].Asset? && |assets[a].data| <= MAX_FILE
  }

  /** The stored files below a prefix, by the rest of their name. */
  function Existing(files: Files, prefix: string): Files {
    map a | a in (set p | p in files && StartsWith(p, prefix) :: p[|prefix|..]) && prefix + a in files :: files[prefix + a]
  }

  /** The stored names a build's files get. */
  function Placed(assets: Files, prefix: string): Files {
    map p | p in (set a | a in assets :: prefix + a) && p[|prefix|..] in assets :: assets[p[|prefix|..]]
  }

  predicate AllStatic(assets: Files) {
    forall a :: a in assets ==> IsStatic(a)
  }

  /** A commit that is already published comes with the very same files. */
  predicate Repeatable(previews: Previews, files: Files, n: string, sha: string, assets: Files) {
    n in previews && previews[n].sha == sha ==> Existing(files, ShaPrefix(n, sha)) == assets
  }

  predicate Acceptable(previews: Previews, files: Files, c: Candidate) {
    var n := Decimal(c.number);
    IsNumber(n) && IsSha(c.sha) && Repeatable(previews, files, n, c.sha, c.assets) && AllStatic(c.assets)
  }

  function AddedFiles(files: Files, c: Candidate): Files {
    var n := Decimal(c.number);
    (Without(files, {n}) + Placed(c.assets, ShaPrefix(n, c.sha)))[ForwardPath(n) := Forward(n, c.sha)]
  }

  function AddedPreviews(previews: Previews, c: Candidate, now: int): Previews {
    previews[Decimal(c.number) := Entry(c.sha, now, c.runId)]
  }

  function FinishedFiles(s: State, files: Files): Files {
    files[LISTING := Listing(s.previews)][NO_JEKYLL := Empty][STATE := Document(s)]
  }

  ghost predicate Fits(files: Files) {
    |files| <= MAX_SITE_FILES && Total(Sizes(files)) <= MAX_SITE
  }

  // -------------------------------------------------------------------- prepare

  /** What one run observes: the listed pull requests, the clock, the candidate build if the event
      carries one, and its pull request at the second look. */
  datatype Inputs = Inputs(prs: Pulls, now: int, candidate: Option<Candidate>, pull: Pull)

  predicate Legal(i: Inputs, previews: Previews) {
    && i.now > 0
    && (forall n :: n in previews ==> n in i.prs)
    && (i.candidate.Some? ==> ValidAssets(i.candidate.value.assets))
  }

  function CandidateStanding(i: Inputs): Standing
    requires i.candidate.Some?
  {
    ValidatePr(i.pull, i.candidate.value.number, Some(i.candidate.value.sha))
  }

  /** The candidate is still the head of an open pull request against main. */
  predicate Chosen(i: Inputs) {
    i.candidate.Some? && CandidateStanding(i) == Good
  }

  function Kept(previews: Previews, i: Inputs): Previews
    requires forall n :: n in previews ==> n in i.prs
  {
    previews - Dropped(previews, i.prs, i.now)
  }

  function KeptFiles(previews: Previews, files: Files, i: Inputs): Files
    requires forall n :: n in previews ==> n in i.prs
  {
    Without(files, Dropped(previews, i.prs, i.now))
  }

  function NextPreviews(previews: Previews, i: Inputs): Previews
    requires forall n :: n in previews ==> n in i.prs
  {
    if Chosen(i) then AddedPreviews(Kept(previews, i), i.candidate.value, i.now) else Kept(previews, i)
  }

  function NextFiles(previews: Previews, files: Files, i: Inputs): Files
    requires forall n :: n in previews ==> n in i.prs
  {
    var kept := KeptFiles(previews, files, i);
    if Chosen(i) then AddedFiles(kept, i.candidate.value) else kept
  }

  /** Nothing a run looks at makes it stop before it writes. */
  predicate Admitted(previews: Previews, files: Files, i: Inputs)
    requires forall n :: n in previews ==> n in i.prs
  {
    && Trusted(previews, i.prs)
    && (i.candidate.Some? ==> CandidateStanding(i) != Refused)
    && (Chosen(i) ==> Acceptable(Kept(previews, i), KeptFiles(previews, files, i), i.candidate.value))
  }

  /** One run of the publisher over a loaded aggregate: the state and files it writes. */
  ghost function Prepare(s: State, files: Files, i: Inputs): Result<(State, Files)>
    requires Legal(i, s.previews)
  {
    var state := s.(previews := NextPreviews(s.previews, i));
    var all := FinishedFiles(state, NextFiles(s.previews, files, i));
    if Admitted(s.previews, files, i) && Fits(all) then Ok((state, all)) else Unsafe
  }

  // ------------------------------------------------------- pruning and adding keep order

  /** A file of a listed preview's current build carries that preview's number. */
  lemma OwnerIsNumber(previews: Previews, path: string)
    requires forall n :: n in previews ==> IsNumber(n)
    requires StartsWith(path, ROOT) && TailOf(path).Some? && Owned(previews, path) && !ForwardTail(TailOf(path).value)
    ensures StartsWith(path, ShaPrefix(NumberOf(path), previews[NumberOf(path)].sha))
  {
    var n :| n in previews && StartsWith(path, ShaPrefix(n, previews[n].sha));
    var q := ShaPrefix(n, previews[n].sha);
    assert path[..|PrPrefix(n)|] == q[..|PrPrefix(n)|];
    UnderNumber(path, n);
  }

  lemma IndexIsBelow(n: string, sha: string)
    requires IsNumber(n)
    ensures StartsWith(IndexPath(n, sha), PrPrefix(n)) && StartsWith(IndexPath(n, sha), ROOT)
    ensures NumberOf(IndexPath(n, sha)) == n
  {
    var path := IndexPath(n, sha);
    assert path[..|PrPrefix(n)|] == PrPrefix(n);
    UnderNumber(path, n);
  }

  lemma PruningIsTidy(previews: Previews, files: Files, drop: set<string>)
    requires forall n :: n in previews ==> IsNumber(n)
    requires drop <= previews.Keys && Tidy(previews, files)
    ensures Tidy(previews - drop, Without(files, drop))
  {
    var kept, left := Without(files, drop), previews - drop;
    forall p | p in kept && StartsWith(p, ROOT) ensures Owned(left, p) {
      FixedAreOutside(p);
      NumberedIsUnder(p);
      assert NumberOf(p) !in drop;
      if !ForwardTail(TailOf(p).value) { OwnerIsNumber(previews, p); }
    }
    forall n | n in left ensures IndexPath(n, left[n].sha) in kept {
      IndexIsBelow(n, left[n].sha);
      var path := IndexPath(n, left[n].sha);
      forall m | m in drop ensures !StartsWith(path, PrPrefix(m)) {
        if StartsWith(path, PrPrefix(m)) { DirectoriesAreDisjoint(path, m, n); }
      }
    }
  }

  /** The name a build file is stored under determines the build file. */
  lemma PlacedAt(assets: Files, prefix: string, path: string)
    ensures path in Placed(assets, prefix) <==> StartsWith(path, prefix) && path[|prefix|..] in assets
    ensures path in Placed(assets, prefix) ==> Placed(assets, prefix)[path] == assets[path[|prefix|..]]
  {
    if StartsWith(path, prefix) && path[|prefix|..] in assets {
      assert path == prefix + path[|prefix|..];
    }
    forall a | a in assets ensures (prefix + a)[|prefix|..] == a && StartsWith(prefix + a, prefix) {
      assert (prefix + a)[..|prefix|] == prefix;
    }
  }

  lemma PlacedIsBelow(n: string, sha: string, path: string)
    requires StartsWith(path, ShaPrefix(n, sha))
    ensures StartsWith(path, PrPrefix(n))
  {
    assert path[..|PrPrefix(n)|] == ShaPrefix(n, sha)[..|PrPrefix(n)|] == PrPrefix(n);
  }

  lemma BelowOne(path: string, n: string)
    ensures Below(path, {n}) <==> StartsWith(path, PrPrefix(n))
  {
    if StartsWith(path, PrPrefix(n)) {
      assert n in {n};
    }
  }

  /** The candidate's directory holds exactly its build and its forwarding page. */
  predicate HoldsBuild(after: Files, c: Candidate, path: string) {
    var n := Decimal(c.number);
    var prefix := ShaPrefix(n, c.sha);
    if path == ForwardPath(n) then path in after && after[path] == Forward(n, c.sha)
    else if StartsWith(path, prefix) && path[|prefix|..] in c.assets then
      path in after && after[path] == c.assets[path[|prefix|..]]
    else path !in after
  }

  predicate SameAt(before: Files, after: Files, path: string) {
    (path in after <==> path in before) && (path in before ==> after[path] == before[path])
  }

  /** The files after adding: the candidate's directory is replaced, every other path is as before. */
  lemma AddedExactly(files: Files, c: Candidate, path: string)
    ensures if StartsWith(path, PrPrefix(Decimal(c.number)))
            then HoldsBuild(AddedFiles(files, c), c, path)
            else SameAt(files, AddedFiles(files, c), path)
  {
    var n := Decimal(c.number);
    var prefix := ShaPrefix(n, c.sha);
    PlacedAt(c.assets, prefix, path);
    BelowOne(path, n);
    assert ForwardPath(n)[..|PrPrefix(n)|] == PrPrefix(n);
    if StartsWith(path, prefix) {
      PlacedIsBelow(n, c.sha, path);
    }
  }

  /** The rest of the name of a file below a prefix. */
  lemma SplitAt(path: string, prefix: string)
    requires StartsWith(path, prefix)
    ensures path == prefix + path[|prefix|..]
  {
  }

  lemma AddedFileIsTidy(previews: Previews, files: Files, c: Candidate, now: int, path: string)
    requires IsNumber(Decimal(c.number)) && IsSha(c.sha) && ValidAssets(c.assets)
    requires forall n :: n in previews ==> IsNumber(n)
    requires Tidy(previews, files) && path in AddedFiles(files, c)
    ensures IsKnown(path) && (StartsWith(path, ROOT) ==> Owned(AddedPreviews(previews, c, now), path))
  {
    var n := Decimal(c.number);
    var prefix, after := ShaPrefix(n, c.sha), AddedPreviews(previews, c, now);
    AddedExactly(files, c, path);
    if path == ForwardPath(n) {
      ForwardIsKnown(n);
    } else if StartsWith(path, prefix) && path[|prefix|..] in c.assets {
      SplitAt(path, prefix);
      BuildFileIsKnown(n, c.sha, path[|prefix|..]);
      assert n in after && StartsWith(path, ShaPrefix(n, after[n].sha));
    } else if StartsWith(path, ROOT) {
      FixedAreOutside(path);
      NumberedIsUnder(path);
      var m := NumberOf(path);
      assert m != n;
      if !ForwardTail(TailOf(path).value) {
        OwnerIsNumber(previews, path);
        assert m in after && StartsWith(path, ShaPrefix(m, after[m].sha));
      }
    }
  }

  lemma AddingIsTidy(previews: Previews, files: Files, c: Candidate, now: int)
    requires IsNumber(Decimal(c.number)) && IsSha(c.sha) && ValidAssets(c.assets)
    requires forall n :: n in previews ==> IsNumber(n)
    requires Tidy(previews, files)
    ensures Tidy(AddedPreviews(previews, c, now), AddedFiles(files, c))
  {
    var n := Decimal(c.number);
    var after, all := AddedPreviews(previews, c, now), AddedFiles(files, c);
    forall p | p in all ensures IsKnown(p) && (StartsWith(p, ROOT) ==> Owned(after, p)) {
      AddedFileIsTidy(previews, files, c, now, p);
    }
    forall m | m in after ensures IndexPath(m, after[m].sha) in all {
      var path := IndexPath(m, after[m].sha);
      AddedExactly(files, c, path);
      IndexIsBelow(m, after[m].sha);
      if m == n {
        var prefix := ShaPrefix(n, c.sha);
        assert path[..|prefix|] == prefix && path[|prefix|..] == "index.html";
      } else if StartsWith(path, PrPrefix(n)) {
        DirectoriesAreDisjoint(path, m, n);
      }
    }
  }

  /** The three generated files neither hide nor orphan anything. */
  lemma FinishingIsTidy(s: State, files: Files)
    requires forall n :: n in s.previews ==> IsNumber(n)
    requires Tidy(s.previews, files)
    ensures Tidy(s.previews, FinishedFiles(s, files))
  {
    var all := FinishedFiles(s, files);
    forall p | p in all ensures IsKnown(p) && (StartsWith(p, ROOT) ==> Owned(s.previews, p)) {
      FixedAreOutside(p);
    }
  }

  // ------------------------------------------------------------------ main results

  /** Stored build files and forwarding pages stay within the per-file limit. */
  ghost predicate SmallBelow(files: Files) {
    forall p :: p in files && StartsWith(p, ROOT) ==> Size(files[p]) <= MAX_FILE
  }

  lemma AddingStaysSmall(files: Files, c: Candidate)
    requires IsNumber(Decimal(c.number)) && IsSha(c.sha) && ValidAssets(c.assets)
    requires SmallBelow(files)
    ensures SmallBelow(AddedFiles(files, c))
  {
    var all := AddedFiles(files, c);
    forall p | p in all && StartsWith(p, ROOT) ensures Size(all[p]) <= MAX_FILE {
      AddedExactly(files, c, p);
    }
  }

  /** The input of a run: the empty aggregate when the branch does not exist, a loaded one otherwise. */
  ghost predicate Source(s: State, files: Files, url: string) {
    (s == EmptyState(url) && files == map[]) || (Loads(files, url) && s == files[STATE].state)
  }

  ghost predicate GoodParts(previews: Previews, files: Files) {
    WellNamed(previews) && Tidy(previews, files) && SmallBelow(files)
  }

  lemma PruningIsGood(s: State, files: Files, url: string, i: Inputs)
    requires Source(s, files, url) && Legal(i, s.previews)
    ensures GoodParts(Kept(s.previews, i), KeptFiles(s.previews, files, i))
  {
    PruningIsTidy(s.previews, files, Dropped(s.previews, i.prs, i.now));
  }

  lemma AddingIsGood(previews: Previews, files: Files, c: Candidate, now: int)
    requires GoodParts(previews, files)
    requires IsNumber(Decimal(c.number)) && IsSha(c.sha) && ValidAssets(c.assets) && now > 0
    ensures GoodParts(AddedPreviews(previews, c, now), AddedFiles(files, c))
  {
    AddingIsTidy(previews, files, c, now);
    AddingStaysSmall(files, c);
    NamingTheCandidate(previews, c, now);
  }

  lemma NamingTheCandidate(previews: Previews, c: Candidate, now: int)
    requires WellNamed(previews) && IsNumber(Decimal(c.number)) && IsSha(c.sha) && now > 0
    ensures WellNamed(AddedPreviews(previews, c, now))
  {
  }

  lemma FinishingStaysSmall(s: State, files: Files)
    requires SmallBelow(files)
    ensures SmallBelow(FinishedFiles(s, files))
  {
    var all := FinishedFiles(s, files);
    forall p | p in all && StartsWith(p, ROOT) ensures Size(all[p]) <= MAX_FILE {
      FixedAreOutside(p);
      assert all[p] == files[p];
    }
  }

  lemma FinishingIsGood(s: State, files: Files)
    requires GoodParts(s.previews, files)
    ensures GoodParts(s.previews, FinishedFiles(s, files))
  {
    FinishingIsTidy(s, files);
    FinishingStaysSmall(s, files);
  }

  lemma GeneratedFiles(s: State, files: Files)
    ensures var all := FinishedFiles(s, files);
            && STATE in all && all[STATE] == Document(s)
            && LISTING in all && all[LISTING] == Listing(s.previews)
            && NO_JEKYLL in all && all[NO_JEKYLL] == Empty
  {
    assert STATE[1] == 't' && LISTING[1] == 'i' && NO_JEKYLL[1] == 'i' && LISTING[5] == 'i' && NO_JEKYLL[5] == '.';
  }

  lemma BodyIsGood(s: State, files: Files, url: string, i: Inputs)
    requires Source(s, files, url) && Legal(i, s.previews) && Admitted(s.previews, files, i)
    ensures GoodParts(NextPreviews(s.previews, i), NextFiles(s.previews, files, i))
    ensures WellNamed(s.previews) && (Chosen(i) ==> IsNumber(Decimal(i.candidate.value.number)))
  {
    PruningIsGood(s, files, url, i);
    if Chosen(i) {
      AddingIsGood(Kept(s.previews, i), KeptFiles(s.previews, files, i), i.candidate.value, i.now);
    }
  }

  /** What every run writes: an owned state with its documents, tidy files, bounded below the
      pull request directories. */
  lemma WrittenIsTidy(s: State, files: Files, url: string, i: Inputs)
    requires Source(s, files, url) && Legal(i, s.previews) && Prepare(s, files, i).Ok?
    ensures var (after, all) := Prepare(s, files, i).value;
            && ValidState(after, url) && GoodParts(after.previews, all) && Fits(all)
            && STATE in all && all[STATE] == Document(after)
            && LISTING in all && all[LISTING] == Listing(after.previews)
            && NO_JEKYLL in all && all[NO_JEKYLL] == Empty
  {
    var after, body := Prepare(s, files, i).value.0, NextFiles(s.previews, files, i);
    BodyIsGood(s, files, url, i);
    FinishingIsGood(after, body);
    GeneratedFiles(after, body);
  }

  // ------------------------------------------------------- the documents stay small

  /** Distinct previews have distinct index pages, none of them a generated file. */
  lemma {:induction false} IndexPagesAreCounted(numbers: set<string>, previews: Previews, files: Files)
    requires numbers <= previews.Keys && forall n :: n in previews ==> IsNumber(n)
    requires forall n :: n in numbers ==> IndexPath(n, previews[n].sha) in files
    requires {STATE, LISTING, NO_JEKYLL} <= files.Keys
    ensures |numbers| + 3 <= |files|
    decreases |numbers|
  {
    if numbers == {} {
      GeneratedNamesDiffer();
      SubsetSize({STATE, LISTING, NO_JEKYLL}, files.Keys);
    } else {
      var n :| n in numbers;
      var path := IndexPath(n, previews[n].sha);
      IndexIsBelow(n, previews[n].sha);
      FixedAreOutside(path);
      forall m | m in numbers - {n} ensures IndexPath(m, previews[m].sha) != path {
        IndexIsBelow(m, previews[m].sha);
      }
      assert (files - {path}).Keys == files.Keys - {path};
      IndexPagesAreCounted(numbers - {n}, previews, files - {path});
    }
  }

  lemma GeneratedNamesDiffer()
    ensures |{STATE, LISTING, NO_JEKYLL}| == 3
  {
    assert STATE[1] == 't' && LISTING[1] == 'i' && NO_JEKYLL[1] == 'i' && LISTING[5] == 'i' && NO_JEKYLL[5] == '.';
  }

  /** Entries as the publisher meets them: an entry's two numbers take at most 900 digits. */
  predicate Ordinary(previews: Previews) {
    forall n :: n in previews ==> Digits(previews[n].updatedAt) + Digits(previews[n].runId) <= 900
  }

  lemma ListingStaysSmall(previews: Previews, k: nat)
    requires WellNamed(previews) && |previews| == k <= 9997
    ensures ListingSize(previews) <= MAX_FILE
  {
    assert ListingWeights(previews).Keys == previews.Keys;
    TotalAtMost(ListingWeights(previews), k, 78);
  }

  lemma DocumentStaysSmall(s: State, k: nat)
    requires WellNamed(s.previews) && Ordinary(s.previews) && |s.previews| == k <= 9997
    requires s.schema == MARKER && s.repository == REPOSITORY && |s.pagesUrl| <= 1000
    ensures DocumentSize(s) <= MAX_FILE
  {
    assert DocumentWeights(s.previews).Keys == s.previews.Keys;
    TotalAtMost(DocumentWeights(s.previews), k, 1023);
  }

  /** The state document a run is going to write. */
  function NextState(s: State, i: Inputs): State
    requires forall n :: n in s.previews ==> n in i.prs
  {
    s.(previews := NextPreviews(s.previews, i))
  }

  /** Every aggregate the publisher writes is one its loader accepts and reads back as written, if
      and only if the state document it is going to write fits the loader's per-file limit, which
      the writer itself does not check. The listing page always fits. */
  lemma WrittenLoadsExactly(s: State, files: Files, url: string, i: Inputs)
    requires Source(s, files, url) && Legal(i, s.previews) && Prepare(s, files, i).Ok?
    ensures var (after, all) := Prepare(s, files, i).value;
            && (Loads(all, url) <==> DocumentSize(NextState(s, i)) <= MAX_FILE)
            && (Loads(all, url) ==> Source(after, all, url))
  {
    WrittenIsTidy(s, files, url, i);
    var (after, all) := Prepare(s, files, i).value;
    IndexPagesAreCounted(after.previews.Keys, after.previews, all);
    ListingStaysSmall(after.previews, |after.previews|);
    assert Size(all[STATE]) == DocumentSize(after) && Size(all[LISTING]) == ListingSize(after.previews);
    forall p | p in all && p !in {STATE, LISTING} ensures Size(all[p]) <= MAX_FILE {
      assert IsKnown(p);
    }
  }

  /** The run id and the time that a run may add take at most 900 digits. */
  predicate OrdinaryInputs(i: Inputs) {
    i.candidate.Some? ==> Digits(i.now) + Digits(i.candidate.value.runId) <= 900
  }

  lemma NextIsOrdinary(previews: Previews, i: Inputs)
    requires (forall n :: n in previews ==> n in i.prs) && Ordinary(previews) && OrdinaryInputs(i)
    ensures Ordinary(NextPreviews(previews, i))
  {
  }

  /** So with ordinary entries and an ordinary run id every write can be read back. */
  lemma OrdinaryWritesLoad(s: State, files: Files, url: string, i: Inputs)
    requires Source(s, files, url) && Legal(i, s.previews) && Prepare(s, files, i).Ok?
    requires |url| <= 1000 && Ordinary(s.previews) && OrdinaryInputs(i)
    ensures var (after, all) := Prepare(s, files, i).value;
            Loads(all, url) && all[STATE].state == after && Ordinary(after.previews)
  {
    WrittenLoadsExactly(s, files, url, i);
    WrittenIsTidy(s, files, url, i);
    NextIsOrdinary(s.previews, i);
    var (after, all) := Prepare(s, files, i).value;
    IndexPagesAreCounted(after.previews.Keys, after.previews, all);
    DocumentStaysSmall(after, |after.previews|);
  }

  // ------------------------------------------------------------- what a run changes

  /** Exactly the open, unexpired previews survive, and a chosen candidate joins them. */
  lemma KeptExactly(s: State, files: Files, i: Inputs, n: string)
    requires Legal(i, s.previews) && WellNamed(s.previews) && Prepare(s, files, i).Ok?
    ensures var after := Prepare(s, files, i).value.0.previews;
            var arrives := Chosen(i) && n == Decimal(i.candidate.value.number);
            var stays := n in s.previews && i.prs[n].state == "open" && i.now - s.previews[n].updatedAt < TTL;
            && (n in after <==> (arrives || stays))
            && (arrives ==> after[n] == Entry(i.candidate.value.sha, i.now, i.candidate.value.runId))
            && (stays && !arrives ==> after[n] == s.previews[n])
  {
  }

  /** A file below the directory of one pull request after a run. */
  predicate DirectoryAfter(previews: Previews, files: Files, i: Inputs, all: Files, n: string, path: string)
    requires forall m :: m in previews ==> m in i.prs
  {
    if Chosen(i) && n == Decimal(i.candidate.value.number) then HoldsBuild(all, i.candidate.value, path)
    else if n in NextPreviews(previews, i) then SameAt(files, all, path)
    else path !in all
  }

  lemma BodyExactly(previews: Previews, files: Files, i: Inputs, n: string, path: string)
    requires WellNamed(previews) && forall m :: m in previews ==> m in i.prs
    requires Chosen(i) ==> IsNumber(Decimal(i.candidate.value.number))
    requires IsNumber(n) && StartsWith(path, PrPrefix(n)) && Tidy(NextPreviews(previews, i), NextFiles(previews, files, i))
    ensures DirectoryAfter(previews, files, i, NextFiles(previews, files, i), n, path)
  {
    UnderNumber(path, n);
    if Chosen(i) {
      var m := Decimal(i.candidate.value.number);
      AddedExactly(KeptFiles(previews, files, i), i.candidate.value, path);
      if n != m && StartsWith(path, PrPrefix(m)) {
        DirectoriesAreDisjoint(path, n, m);
      }
    }
    if n in Kept(previews, i) {
      KeptDirectory(previews, files, i, n, path);
    }
  }

  lemma FinishedAt(s: State, body: Files, path: string)
    requires StartsWith(path, ROOT)
    ensures SameAt(body, FinishedFiles(s, body), path)
  {
    FixedAreOutside(path);
  }

  lemma DirectoryExactly(s: State, files: Files, url: string, i: Inputs, n: string, path: string)
    requires Source(s, files, url) && Legal(i, s.previews) && Prepare(s, files, i).Ok?
    requires IsNumber(n) && StartsWith(path, PrPrefix(n))
    ensures DirectoryAfter(s.previews, files, i, Prepare(s, files, i).value.1, n, path)
  {
    BodyIsGood(s, files, url, i);
    BodyExactly(s.previews, files, i, n, path);
    UnderNumber(path, n);
    FinishedAt(Prepare(s, files, i).value.0, NextFiles(s.previews, files, i), path);
  }

  lemma KeptDirectory(previews: Previews, files: Files, i: Inputs, n: string, path: string)
    requires WellNamed(previews) && forall m :: m in previews ==> m in i.prs
    requires IsNumber(n) && n in Kept(previews, i) && StartsWith(path, PrPrefix(n))
    ensures SameAt(files, KeptFiles(previews, files, i), path)
  {
    forall m | m in Dropped(previews, i.prs, i.now) ensures !StartsWith(path, PrPrefix(m)) {
      if StartsWith(path, PrPrefix(m)) { DirectoriesAreDisjoint(path, m, n); }
    }
  }

  /** Publishing or expiring some pull requests leaves every other pull request's stored files as
      they were, and leaves nothing of the expired ones. */
  lemma OthersAreUntouched(s: State, files: Files, url: string, i: Inputs, n: string)
    requires Source(s, files, url) && Legal(i, s.previews) && Prepare(s, files, i).Ok?
    requires IsNumber(n) && !(Chosen(i) && n == Decimal(i.candidate.value.number))
    ensures var (after, all) := Prepare(s, files, i).value;
            if n in after.previews then forall p :: StartsWith(p, PrPrefix(n)) ==> SameAt(files, all, p)
            else forall p :: p in all ==> !StartsWith(p, PrPrefix(n))
  {
    var (after, all) := Prepare(s, files, i).value;
    if n in after.previews {
      forall p | StartsWith(p, PrPrefix(n)) ensures SameAt(files, all, p) {
        DirectoryExactly(s, files, url, i, n, p);
      }
    } else {
      forall p | p in all ensures !StartsWith(p, PrPrefix(n)) {
        if StartsWith(p, PrPrefix(n)) { DirectoryExactly(s, files, url, i, n, p); }
      }
    }
  }

  lemma ExistingAt(files: Files, prefix: string, path: string)
    requires StartsWith(path, prefix)
    ensures path[|prefix|..] in Existing(files, prefix) <==> path in files
    ensures path in files ==> Existing(files, prefix)[path[|prefix|..]] == files[path]
  {
    SplitAt(path, prefix);
  }

  /** A build that is already published cannot be replaced: a run that publishes the same commit
      again leaves every file of that build as it was. */
  lemma SameCommitIsImmutable(s: State, files: Files, url: string, i: Inputs, path: string)
    requires Source(s, files, url) && Legal(i, s.previews) && Prepare(s, files, i).Ok?
    requires Chosen(i)
    requires var c := i.candidate.value;
             var n := Decimal(c.number);
             n in Kept(s.previews, i) && s.previews[n].sha == c.sha && StartsWith(path, ShaPrefix(n, c.sha))
    ensures SameAt(files, Prepare(s, files, i).value.1, path)
  {
    var c := i.candidate.value;
    var n := Decimal(c.number);
    var prefix, kept := ShaPrefix(n, c.sha), KeptFiles(s.previews, files, i);
    PlacedIsBelow(n, c.sha, path);
    DirectoryExactly(s, files, url, i, n, path);
    KeptDirectory(s.previews, files, i, n, path);
    ExistingAt(kept, prefix, path);
    NotTheForward(n, c.sha, path);
  }

  lemma NotTheForward(n: string, sha: string, path: string)
    requires IsNumber(n) && IsSha(sha) && StartsWith(path, ShaPrefix(n, sha))
    ensures path != ForwardPath(n)
  {
    assert |path| >= |PrPrefix(n)| + 41;
  }

  // --------------------------------------------------------------------- the guard

  /** The last check before deployment: the branch is still at the expected commit, and the state
      stored there is good. */
  predicate Guard(head: Option<nat>, expected: nat, s: State, url: string, prs: Pulls, now: int, candidate: Option<(string, string)>)
    requires forall n :: n in s.previews ==> n in prs
  {
    && head == Some(expected)
    && ValidState(s, url)
    && Trusted(s.previews, prs)
    && AllOpen(s.previews, prs)
    && Unexpired(s.previews, now)
    && (candidate.Some? ==> IsHead(s.previews, prs, candidate.value.0, candidate.value.1))
  }

  predicate AllOpen(previews: Previews, prs: Pulls)
    requires forall n :: n in previews ==> n in prs
  {
    forall n :: n in previews ==> prs[n].state == "open"
  }

  predicate Unexpired(previews: Previews, now: int) {
    forall n :: n in previews ==> now - previews[n].updatedAt < TTL
  }

  /** The candidate is listed at its commit, which is still the head of its pull request. */
  predicate IsHead(previews: Previews, prs: Pulls, n: string, sha: string)
    requires forall m :: m in previews ==> m in prs
  {
    n in previews && previews[n].sha == sha && IsNumber(n) && ValidatePr(prs[n], Value(n), Some(sha)) == Good
  }

  /** The candidate a run reports for deployment. */
  function Reported(i: Inputs): Option<(string, string)> {
    if Chosen(i) then Some((Decimal(i.candidate.value.number), i.candidate.value.sha)) else None
  }

  /** No pull request changed since the run looked at it. */
  ghost predicate Undisturbed(previews: Previews, i: Inputs, prs: Pulls)
    requires forall n :: n in previews ==> n in i.prs
  {
    forall n :: n in NextPreviews(previews, i) ==>
      n in prs && prs[n] == if Chosen(i) && n == Decimal(i.candidate.value.number) then i.pull else i.prs[n]
  }

  lemma StillGood(previews: Previews, files: Files, i: Inputs, prs: Pulls, n: string)
    requires (forall m :: m in previews ==> m in i.prs) && Admitted(previews, files, i)
    requires Undisturbed(previews, i, prs) && n in NextPreviews(previews, i)
    ensures IsNumber(n) && ValidatePr(prs[n], Value(n), None) == Good && prs[n].state == "open"
    ensures Chosen(i) && n == Decimal(i.candidate.value.number) ==>
              ValidatePr(prs[n], Value(n), Some(i.candidate.value.sha)) == Good
  {
    if Chosen(i) && n == Decimal(i.candidate.value.number) {
      ValueOfDecimal(i.candidate.value.number);
    } else {
      assert n in previews && !Gone(i.prs[n], previews[n], i.now);
    }
  }

  lemma AllStillGood(previews: Previews, files: Files, i: Inputs, prs: Pulls)
    requires (forall m :: m in previews ==> m in i.prs) && Admitted(previews, files, i)
    requires Undisturbed(previews, i, prs)
    ensures var after := NextPreviews(previews, i);
            && Trusted(after, prs) && AllOpen(after, prs)
            && (Reported(i).Some? ==> IsHead(after, prs, Reported(i).value.0, Reported(i).value.1))
  {
    forall n | n in NextPreviews(previews, i)
      ensures IsNumber(n) && ValidatePr(prs[n], Value(n), None) == Good && prs[n].state == "open"
    {
      StillGood(previews, files, i, prs, n);
    }
    if Chosen(i) {
      StillGood(previews, files, i, prs, Decimal(i.candidate.value.number));
    }
  }

  /** If no pull request changes between preparing and deploying, the guard passes exactly while the
      branch is at the commit of the run and no published preview has expired. */
  lemma UndisturbedDeploys(s: State, files: Files, url: string, i: Inputs, prs: Pulls, later: int, head: Option<nat>, expected: nat)
    requires Source(s, files, url) && Legal(i, s.previews) && Prepare(s, files, i).Ok?
    requires Undisturbed(s.previews, i, prs)
    ensures var after := Prepare(s, files, i).value.0;
            Guard(head, expected, after, url, prs, later, Reported(i))
            <==> head == Some(expected) && Unexpired(after.previews, later)
  {
    BodyIsGood(s, files, url, i);
    AllStillGood(s.previews, files, i, prs);
  }
}
