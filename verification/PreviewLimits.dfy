/** A run of the publisher whose write its own loader refuses: a crowd of previews with long run ids,
    none of them longer than a JSON number may be, and one preview more. */
module PreviewLimits {
  import opened Text
  import opened Sums
  import opened PreviewPaths
  import opened PreviewSite

  const URL := "https://jomcgi-org.github.io/homelab/"
  const PAGE := "index.html"

  /** The longest number that the JSON reader and writer take, in digits. */
  const MAX_DIGITS: nat := 4300

  /** Room for a page, in bytes. */
  const PAGE_ROOM: nat := 16 * 1024

  // ----------------------------------------------------------------- small facts

  lemma {:induction false} PartsWithoutSlash(s: string)
    requires '/' !in s
    ensures Parts(s) == [s]
  {
    if s != "" {
      PartsWithoutSlash(s[1..]);
      assert s == [s[0]] + s[1..];
    }
  }

  lemma {:induction false} LastDotAt(a: string, b: string)
    requires '.' !in b
    ensures LastDot(a + "." + b) == |a|
  {
    var s := a + "." + b;
    if b != "" {
      assert s[..|s| - 1] == a + "." + b[..|b| - 1];
      LastDotAt(a, b[..|b| - 1]);
    }
  }

  lemma LowerIsLower(s: string)
    requires forall i :: 0 <= i < |s| ==> !('A' <= s[i] <= 'Z')
    ensures Lower(s) == s
  {
  }

  lemma HtmlIsStatic(name: string, stem: string, ending: string)
    requires name == stem + "." + ending && 0 < |stem| && |name| <= 240 && 0 < |ending|
    requires forall i :: 0 <= i < |name| ==> Portable(name[i])
    requires '/' !in name && name[0] != '.' && '.' !in ending
    requires (forall i :: 0 <= i < |ending| ==> !('A' <= ending[i] <= 'Z')) && "." + ending in EXTENSIONS
    ensures IsStatic(name)
  {
    PartsWithoutSlash(name);
    LastDotAt(stem, ending);
    assert name[|stem|..] == "." + ending;
    LowerIsLower("." + ending);
  }

  lemma PageIsStatic()
    ensures IsStatic(PAGE)
  {
    assert PAGE == "index" + "." + "html" && "." + "html" == ".html";
    HtmlIsStatic(PAGE, "index", "html");
  }

  /** There are numbers of every length. */
  lemma {:induction false} NumberOfLength(d: nat) returns (id: nat)
    requires d > 0
    ensures id > 0 && |Decimal(id)| == d
  {
    if d == 1 {
      id := 1;
    } else {
      var less := NumberOfLength(d - 1);
      id := 10 * less;
    }
  }

  // ------------------------------------------------------------------- the crowd

  function Zeros(): string {
    seq(40, _ => '0')
  }

  /** Pull request numbers of four digits. */
  function Label(k: nat): string {
    Decimal(1000 + k)
  }

  lemma LabelFacts(k: nat)
    requires k < 9000
    ensures |Label(k)| == 4 && IsNumber(Label(k)) && Value(Label(k)) == 1000 + k
  {
    var m: nat := 1000 + k;
    assert Decimal(m / 1000) == [Digit(m / 1000)];
    assert m / 10 / 10 / 10 == m / 1000;
    assert |Decimal(m / 10 / 10)| == 2 && |Decimal(m / 10)| == 3;
    ValueOfDecimal(m);
  }

  lemma LabelsDiffer(j: nat, k: nat)
    requires j < 9000 && k < 9000 && j != k
    ensures Label(j) != Label(k)
  {
    LabelFacts(j);
    LabelFacts(k);
  }

  /** The first `k` of some names, all with one value. */
  function Filled<V>(names: seq<string>, k: nat, v: V): map<string, V>
    requires k <= |names|
  {
    if k == 0 then map[] else Filled(names, k - 1, v)[names[k - 1] := v]
  }

  predicate Distinct(names: seq<string>) {
    forall i, j :: 0 <= i < j < |names| ==> names[i] != names[j]
  }

  lemma {:induction false} FilledExactly<V>(names: seq<string>, k: nat, v: V)
    requires k <= |names|
    ensures |Filled(names, k, v)| <= k && (Distinct(names) ==> |Filled(names, k, v)| == k)
    ensures forall p :: p in Filled(names, k, v) <==> p in names[..k]
    ensures forall p :: p in Filled(names, k, v) ==> Filled(names, k, v)[p] == v
  {
    if k > 0 {
      FilledExactly(names, k - 1, v);
      assert names[..k] == names[..k - 1] + [names[k - 1]];
      assert Filled(names, k, v).Keys == Filled(names, k - 1, v).Keys + {names[k - 1]};
    }
  }

  function Labels(k: nat): seq<string> {
    seq(k, j requires 0 <= j < k => Label(j))
  }

  /** Previews of the first `k` numbers, all with one run id. */
  function Crowd(k: nat, id: nat): Previews {
    Filled(Labels(k), k, Entry(Zeros(), 1, id))
  }

  lemma CrowdExactly(k: nat, id: nat)
    requires k <= 9000
    ensures |Crowd(k, id)| == k
    ensures forall n :: n in Crowd(k, id) <==> n in Labels(k)
    ensures forall n :: n in Crowd(k, id) ==> Crowd(k, id)[n] == Entry(Zeros(), 1, id)
  {
    forall i, j | 0 <= i < j < k ensures Labels(k)[i] != Labels(k)[j] {
      LabelsDiffer(i, j);
    }
    FilledExactly(Labels(k), k, Entry(Zeros(), 1, id));
    assert Labels(k)[..k] == Labels(k);
  }

  lemma LabelOf(k: nat, n: string) returns (j: nat)
    requires n in Labels(k)
    ensures j < k && n == Label(j)
  {
    j :| j < k && n == Labels(k)[j];
  }

  /** The names of the index pages of the first `k` previews. */
  function PageNames(k: nat): seq<string> {
    seq(k, j requires 0 <= j < k => IndexPath(Label(j), Zeros()))
  }

  function Pages(k: nat, page: seq<Byte>): Files {
    Filled(PageNames(k), k, Asset(page))
  }

  lemma PagesExactly(k: nat, page: seq<Byte>)
    ensures |Pages(k, page)| <= k
    ensures forall p :: p in Pages(k, page) <==> p in PageNames(k)
    ensures forall p :: p in Pages(k, page) ==> Pages(k, page)[p] == Asset(page)
  {
    FilledExactly(PageNames(k), k, Asset(page));
    assert PageNames(k)[..k] == PageNames(k);
  }

  // ---------------------------------------------------------- the state before the run

  function Full(k: nat, id: nat): State {
    EmptyState(URL).(previews := Crowd(k, id))
  }

  function FullFiles(k: nat, id: nat, page: seq<Byte>): Files {
    Pages(k, page)[STATE := Document(Full(k, id))]
  }

  lemma ZerosAreASha()
    ensures IsSha(Zeros())
  {
  }

  lemma PageOfLabel(j: nat)
    requires j < 9000 && IsStatic(PAGE)
    ensures var n, p := Label(j), IndexPath(Label(j), Zeros());
            IsKnown(p) && StartsWith(p, ROOT) && NumberOf(p) == n && StartsWith(p, ShaPrefix(n, Zeros()))
  {
    LabelFacts(j);
    ZerosAreASha();
    BuildFileIsKnown(Label(j), Zeros(), PAGE);
    IndexIsBelow(Label(j), Zeros());
  }

  lemma CrowdIsWellNamed(k: nat, id: nat)
    requires k <= 9000
    ensures WellNamed(Crowd(k, id))
  {
    CrowdExactly(k, id);
    ZerosAreASha();
    forall n | n in Crowd(k, id) ensures IsNumber(n) {
      var j := LabelOf(k, n);
      LabelFacts(j);
    }
  }

  lemma PageIsTidy(k: nat, id: nat, p: string)
    requires k <= 9000 && IsStatic(PAGE) && p in PageNames(k)
    ensures IsKnown(p) && StartsWith(p, ROOT) && Owned(Crowd(k, id), p)
  {
    var j :| 0 <= j < k && p == PageNames(k)[j];
    PageOfLabel(j);
    CrowdExactly(k, id);
    assert Labels(k)[j] in Labels(k);
  }

  lemma CrowdHasPages(k: nat, id: nat, n: string)
    requires k <= 9000 && n in Crowd(k, id)
    ensures IndexPath(n, Crowd(k, id)[n].sha) in PageNames(k)
  {
    CrowdExactly(k, id);
    var j := LabelOf(k, n);
    assert PageNames(k)[j] in PageNames(k);
  }

  lemma FullIsTidy(k: nat, id: nat, page: seq<Byte>)
    requires k <= 9000 && IsStatic(PAGE)
    ensures Tidy(Crowd(k, id), FullFiles(k, id, page))
  {
    PagesExactly(k, page);
    var previews, files := Crowd(k, id), FullFiles(k, id, page);
    forall p | p in files ensures IsKnown(p) && (StartsWith(p, ROOT) ==> Owned(previews, p)) {
      if p == STATE {
        FixedAreOutside(p);
      } else {
        PageIsTidy(k, id, p);
      }
    }
    forall n | n in previews ensures IndexPath(n, previews[n].sha) in files {
      CrowdHasPages(k, id, n);
    }
  }

  /** The pages take a part of the site. */
  lemma LightTotal(files: Files, heavy: set<string>, page: seq<Byte>)
    requires |files| <= 9005 && |page| <= PAGE_ROOM && forall p :: p in files && p !in heavy ==> files[p] == Asset(page)
    ensures Total(Sizes(files) - heavy) <= 9005 * PAGE_ROOM
  {
    var light := Sizes(files) - heavy;
    assert light.Keys == files.Keys - heavy;
    SubsetSize(light.Keys, files.Keys);
    TotalAtMost(light, |light|, PAGE_ROOM);
  }

  lemma PagesAreSmall(pages: Files, s: State, page: seq<Byte>)
    requires (forall p :: p in pages ==> pages[p] == Asset(page)) && |pages| < 9000 && DocumentSize(s) <= MAX_FILE
    requires |page| <= PAGE_ROOM
    ensures var files := pages[STATE := Document(s)];
            |files| <= MAX_SITE_FILES && Total(Sizes(files)) <= MAX_SITE && forall p :: p in files ==> Size(files[p]) <= MAX_FILE
  {
    var files := pages[STATE := Document(s)];
    assert files.Keys == pages.Keys + {STATE};
    LightTotal(files, {STATE}, page);
    TotalOfFew(Sizes(files), {STATE}, 1, MAX_FILE);
  }

  lemma FullIsSmall(k: nat, id: nat, page: seq<Byte>)
    requires k < 9000 && DocumentSize(Full(k, id)) <= MAX_FILE && |page| <= PAGE_ROOM
    ensures var files := FullFiles(k, id, page);
            |files| <= MAX_SITE_FILES && Total(Sizes(files)) <= MAX_SITE && forall p :: p in files ==> Size(files[p]) <= MAX_FILE
  {
    PagesExactly(k, page);
    PagesAreSmall(Pages(k, page), Full(k, id), page);
  }

  lemma FullLoads(k: nat, id: nat, page: seq<Byte>)
    requires k < 9000 && IsStatic(PAGE) && DocumentSize(Full(k, id)) <= MAX_FILE && |page| <= PAGE_ROOM
    ensures Loads(FullFiles(k, id, page), URL) && FullFiles(k, id, page)[STATE].state == Full(k, id)
  {
    FullIsSmall(k, id, page);
    CrowdIsWellNamed(k, id);
    FullIsTidy(k, id, page);
  }

  // ------------------------------------------------------------------------ the run

  function PullOf(number: int): Pull {
    Pull(number, REPOSITORY, "main", "open", Zeros())
  }

  function CrowdPulls(k: nat, id: nat): Pulls {
    map n | n in Crowd(k, id) :: PullOf(if AllDigits(n) then Value(n) else 0)
  }

  function Newcomer(k: nat, id: nat, page: seq<Byte>): Candidate {
    Candidate(1000 + k, Zeros(), map[PAGE := Asset(page)], id)
  }

  /** Every pull request is open and unexpired, and one more has been built. */
  function Push(k: nat, id: nat, page: seq<Byte>): Inputs {
    Inputs(CrowdPulls(k, id), 2, Some(Newcomer(k, id, page)), PullOf(1000 + k))
  }

  lemma PushIsChosen(k: nat, id: nat, page: seq<Byte>)
    ensures Chosen(Push(k, id, page))
  {
    ZerosAreASha();
  }

  lemma PushIsLegal(k: nat, id: nat, page: seq<Byte>)
    requires ValidAssets(Newcomer(k, id, page).assets)
    ensures Legal(Push(k, id, page), Crowd(k, id))
  {
  }

  lemma AssetsAreValid(assets: Files, page: seq<Byte>)
    requires IsStatic(PAGE) && |page| <= PAGE_ROOM && assets == map[PAGE := Asset(page)]
    ensures ValidAssets(assets)
  {
  }

  lemma PullIsGood(k: nat, id: nat, n: string)
    requires k <= 9000 && n in Crowd(k, id)
    ensures IsNumber(n) && ValidatePr(PullOf(Value(n)), Value(n), None) == Good
  {
    CrowdExactly(k, id);
    var j := LabelOf(k, n);
    LabelFacts(j);
  }

  lemma CrowdIsTrusted(k: nat, id: nat)
    requires k <= 9000
    ensures Trusted(Crowd(k, id), CrowdPulls(k, id))
  {
    forall n | n in Crowd(k, id)
      ensures IsNumber(n) && ValidatePr(CrowdPulls(k, id)[n], Value(n), None) == Good
    {
      PullIsGood(k, id, n);
    }
  }

  /** Nothing is dropped. */
  lemma EverybodyStays(k: nat, id: nat, page: seq<Byte>)
    requires k <= 9000
    ensures Kept(Crowd(k, id), Push(k, id, page)) == Crowd(k, id)
    ensures KeptFiles(Crowd(k, id), FullFiles(k, id, page), Push(k, id, page)) == FullFiles(k, id, page)
  {
    CrowdExactly(k, id);
    assert Dropped(Crowd(k, id), Push(k, id, page).prs, 2) == {};
  }

  lemma NewcomerIsNew(k: nat, id: nat)
    requires k < 9000
    ensures Label(k) !in Crowd(k, id)
  {
    CrowdExactly(k, id);
    if Label(k) in Labels(k) {
      var j := LabelOf(k, Label(k));
      LabelsDiffer(j, k);
    }
  }

  lemma PushIsAdmitted(k: nat, id: nat, page: seq<Byte>)
    requires k < 9000 && IsStatic(PAGE) && |page| <= PAGE_ROOM
    ensures Legal(Push(k, id, page), Crowd(k, id)) && Admitted(Crowd(k, id), FullFiles(k, id, page), Push(k, id, page))
    ensures NextPreviews(Crowd(k, id), Push(k, id, page)) == Crowd(k, id)[Label(k) := Entry(Zeros(), 2, id)]
    ensures NextFiles(Crowd(k, id), FullFiles(k, id, page), Push(k, id, page)) == AddedFiles(FullFiles(k, id, page), Newcomer(k, id, page))
  {
    AssetsAreValid(Newcomer(k, id, page).assets, page);
    PushIsLegal(k, id, page);
    PushIsChosen(k, id, page);
    CrowdIsTrusted(k, id);
    EverybodyStays(k, id, page);
    NewcomerIsNew(k, id);
    LabelFacts(k);
  }

  // ------------------------------------------------------------------- what it writes

  function Overfull(k: nat, id: nat): Previews {
    Crowd(k, id)[Label(k) := Entry(Zeros(), 2, id)]
  }

  /** The bytes of one entry: 118 and the digits of its run id. */
  const ENTRY: nat := 4418

  lemma CrowdWeights(k: nat, id: nat, n: string)
    requires k < 9000 && Digits(id) == MAX_DIGITS && n in Overfull(k, id)
    ensures DocumentWeight(n, Overfull(k, id)[n]) == ENTRY
    ensures n in Crowd(k, id) ==> DocumentWeight(n, Crowd(k, id)[n]) == ENTRY
  {
    CrowdExactly(k, id);
    LabelsTakeFour(k, id);
    LabelFacts(k);
    assert |Zeros()| == 40 && Digits(1) == 1 && Digits(2) == 1;
  }

  lemma CrowdSizes(k: nat, id: nat)
    requires k < 9000
    ensures |Crowd(k, id)| == k && |Overfull(k, id)| == k + 1
  {
    CrowdExactly(k, id);
    NewcomerIsNew(k, id);
    assert Overfull(k, id).Keys == Crowd(k, id).Keys + {Label(k)};
  }

  /** Every entry takes the same room. */
  ghost predicate Uniform(k: nat, id: nat) {
    && (forall n :: n in Overfull(k, id) ==> DocumentWeight(n, Overfull(k, id)[n]) == ENTRY)
    && (forall n :: n in Crowd(k, id) ==> n in Overfull(k, id) && DocumentWeight(n, Crowd(k, id)[n]) == ENTRY)
  }

  lemma CrowdIsUniform(k: nat, id: nat)
    requires k < 9000 && Digits(id) == MAX_DIGITS
    ensures Uniform(k, id)
  {
    forall n | n in Overfull(k, id)
      ensures DocumentWeight(n, Overfull(k, id)[n]) == ENTRY && (n in Crowd(k, id) ==> DocumentWeight(n, Crowd(k, id)[n]) == ENTRY)
    {
      CrowdWeights(k, id, n);
    }
  }

  /** So the size of the state document is known exactly. */
  lemma DocumentSizes(k: nat, id: nat)
    requires 0 < k < 9000 && Uniform(k, id)
    ensures DocumentSize(Full(k, id)) == 157 + k * ENTRY
    ensures DocumentSize(Full(k, id).(previews := Overfull(k, id))) == 157 + (k + 1) * ENTRY
  {
    CrowdSizes(k, id);
    var few, many := DocumentWeights(Crowd(k, id)), DocumentWeights(Overfull(k, id));
    assert few.Keys == Crowd(k, id).Keys && many.Keys == Overfull(k, id).Keys;
    TotalOfEqual(few, k, ENTRY);
    TotalOfEqual(many, k + 1, ENTRY);
  }

  lemma LabelsTakeFour(k: nat, id: nat)
    requires k <= 9000
    ensures forall n :: n in Crowd(k, id) ==> |n| == 4
  {
    CrowdExactly(k, id);
    forall n | n in Crowd(k, id) ensures |n| == 4 {
      var j := LabelOf(k, n);
      LabelFacts(j);
    }
  }

  lemma KeptPage(k: nat, id: nat, p: string, page: seq<Byte>)
    requires p in FullFiles(k, id, page) && p != STATE
    ensures p in PageNames(k + 1) && FullFiles(k, id, page)[p] == Asset(page)
  {
    PagesExactly(k, page);
    var j :| 0 <= j < k && p == PageNames(k)[j];
    assert p == PageNames(k + 1)[j];
  }

  lemma BuiltPage(k: nat, id: nat, p: string, page: seq<Byte>)
    requires HoldsBuild(AddedFiles(FullFiles(k, id, page), Newcomer(k, id, page)), Newcomer(k, id, page), p)
    requires p in AddedFiles(FullFiles(k, id, page), Newcomer(k, id, page)) && p != ForwardPath(Label(k))
    ensures p in PageNames(k + 1) && AddedFiles(FullFiles(k, id, page), Newcomer(k, id, page))[p] == Asset(page)
  {
    SplitAt(p, ShaPrefix(Label(k), Zeros()));
    assert p == PageNames(k + 1)[k];
  }

  /** A file of the new aggregate is the forwarding page of the newcomer, the old state document, or
      an index page. */
  lemma AddedIsPage(k: nat, id: nat, p: string, page: seq<Byte>)
    requires p in AddedFiles(FullFiles(k, id, page), Newcomer(k, id, page)) && p != ForwardPath(Label(k)) && p != STATE
    ensures p in PageNames(k + 1) && AddedFiles(FullFiles(k, id, page), Newcomer(k, id, page))[p] == Asset(page)
  {
    AddedExactly(FullFiles(k, id, page), Newcomer(k, id, page), p);
    if StartsWith(p, PrPrefix(Label(k))) {
      BuiltPage(k, id, p, page);
    } else {
      KeptPage(k, id, p, page);
    }
  }

  function Written(k: nat, id: nat, page: seq<Byte>): Files {
    FinishedFiles(Full(k, id).(previews := Overfull(k, id)), AddedFiles(FullFiles(k, id, page), Newcomer(k, id, page)))
  }

  function Heavy(k: nat): set<string> {
    {STATE, LISTING, NO_JEKYLL, ForwardPath(Label(k))}
  }

  lemma FewAreHeavy(k: nat)
    ensures |Heavy(k)| <= 4
  {
  }

  /** Everything but four files is an index page. */
  lemma WrittenIsPage(k: nat, id: nat, p: string, page: seq<Byte>)
    requires p in Written(k, id, page) && p !in Heavy(k)
    ensures p in PageNames(k + 1) && Written(k, id, page)[p] == Asset(page)
  {
    AddedIsPage(k, id, p, page);
  }

  lemma WrittenNames(k: nat, id: nat, page: seq<Byte>)
    ensures |Written(k, id, page)| <= k + 5
  {
    PagesExactly(k + 1, page);
    FewAreHeavy(k);
    var names := Pages(k + 1, page).Keys + Heavy(k);
    forall p | p in Written(k, id, page) ensures p in names {
      if p !in Heavy(k) { WrittenIsPage(k, id, p, page); }
    }
    SubsetSize(Written(k, id, page).Keys, names);
  }

  lemma ForwardIsAdded(k: nat, id: nat, page: seq<Byte>)
    requires k < 9000
    ensures var p, body := ForwardPath(Label(k)), AddedFiles(FullFiles(k, id, page), Newcomer(k, id, page));
            StartsWith(p, ROOT) && p in body && Size(body[p]) == 625
  {
    var p := ForwardPath(Label(k));
    LabelFacts(k);
    ForwardIsKnown(Label(k));
    AddedExactly(FullFiles(k, id, page), Newcomer(k, id, page), p);
  }

  lemma OverfullIsWellNamed(k: nat, id: nat)
    requires k < 9000
    ensures WellNamed(Overfull(k, id))
  {
    CrowdIsWellNamed(k, id);
    LabelFacts(k);
    ZerosAreASha();
  }

  lemma ListingFits(k: nat, id: nat)
    requires k < 9000
    ensures ListingSize(Overfull(k, id)) <= MAX_FILE
  {
    CrowdSizes(k, id);
    OverfullIsWellNamed(k, id);
    ListingStaysSmall(Overfull(k, id), k + 1);
  }

  /** A bound on every file that is no index page. */
  const BOUND: nat := MAX_FILE + 10000

  ghost predicate Bounded(all: Files, heavy: set<string>) {
    forall p :: p in all && p in heavy ==> Size(all[p]) <= BOUND
  }

  /** The generated files and one forwarding page. */
  lemma FourAreBounded(s: State, body: Files, page: string)
    requires DocumentSize(s) <= BOUND && ListingSize(s.previews) <= BOUND
    requires StartsWith(page, ROOT) && page in body && Size(body[page]) <= BOUND
    ensures Bounded(FinishedFiles(s, body), {STATE, LISTING, NO_JEKYLL, page})
  {
    GeneratedFiles(s, body);
    FinishedAt(s, body, page);
  }

  lemma HeavyIsBounded(k: nat, id: nat, page: seq<Byte>)
    requires k < 9000 && DocumentSize(Full(k, id).(previews := Overfull(k, id))) <= BOUND
    ensures Bounded(Written(k, id, page), Heavy(k))
  {
    ListingFits(k, id);
    ForwardIsAdded(k, id, page);
    FourAreBounded(Full(k, id).(previews := Overfull(k, id)), AddedFiles(FullFiles(k, id, page), Newcomer(k, id, page)), ForwardPath(Label(k)));
  }

  lemma WrittenTotal(all: Files, heavy: set<string>, page: seq<Byte>)
    requires |heavy| <= 4 && |all| <= 9005 && |page| <= PAGE_ROOM
    requires Bounded(all, heavy)
    requires forall p :: p in all && p !in heavy ==> all[p] == Asset(page)
    ensures Total(Sizes(all)) <= MAX_SITE
  {
    LightTotal(all, heavy, page);
    TotalOfFew(Sizes(all), heavy, |heavy|, BOUND);
  }

  lemma WrittenFits(k: nat, id: nat, page: seq<Byte>)
    requires k < 9000 && DocumentSize(Full(k, id).(previews := Overfull(k, id))) <= BOUND
    requires |page| <= PAGE_ROOM
    ensures Fits(Written(k, id, page))
  {
    HeavyIsBounded(k, id, page);
    FewAreHeavy(k);
    WrittenNames(k, id, page);
    forall p | p in Written(k, id, page) && p !in Heavy(k) ensures Written(k, id, page)[p] == Asset(page) {
      WrittenIsPage(k, id, p, page);
    }
    WrittenTotal(Written(k, id, page), Heavy(k), page);
  }

  // ---------------------------------------------------------------------- the result

  /** How many such previews fit the state document. */
  const ROOM: nat := (MAX_FILE - 157) / ENTRY

  lemma CrowdIds(k: nat, id: nat, page: seq<Byte>)
    requires k <= 9000 && Digits(id) <= MAX_DIGITS
    ensures forall n :: n in Crowd(k, id) ==> Digits(Crowd(k, id)[n].runId) <= MAX_DIGITS
    ensures forall p :: p in FullFiles(k, id, page) && p != STATE ==> FullFiles(k, id, page)[p] == Asset(page)
  {
    CrowdExactly(k, id);
    PagesExactly(k, page);
  }

  /** A run over a state that was read back without complaint, with no run id longer than a JSON
      number may be, writes a state that cannot be read back. Every build in it is one page, which
      may be any page of up to sixteen kilobytes. */
  lemma CrowdBlocks(page: seq<Byte>) returns (s: State, files: Files, i: Inputs)
    requires |page| <= PAGE_ROOM
    ensures Source(s, files, URL) && Legal(i, s.previews) && Prepare(s, files, i).Ok?
    ensures !Loads(Prepare(s, files, i).value.1, URL)
    ensures (forall n :: n in s.previews ==> Digits(s.previews[n].runId) <= MAX_DIGITS)
    ensures i.candidate.Some? && Digits(i.candidate.value.runId) <= MAX_DIGITS
    ensures i.candidate.value.assets == map[PAGE := Asset(page)] && forall p :: p in files && p != STATE ==> files[p] == Asset(page)
  {
    var id := NumberOfLength(MAX_DIGITS);
    var k := ROOM;
    PageIsStatic();
    CrowdIsUniform(k, id);
    DocumentSizes(k, id);
    FullLoads(k, id, page);
    PushIsAdmitted(k, id, page);
    WrittenFits(k, id, page);
    s, files, i := Full(k, id), FullFiles(k, id, page), Push(k, id, page);
    CrowdIds(k, id, page);
    WrittenLoadsExactly(s, files, URL, i);
  }
}
