/** The pairwise judge over passing diffs: position debiasing, the verdict cache, and the tally. */
module Pairwise {
  import opened Text
  import opened Sums

  const RUBRIC_VERSION := "1"
  const DIFF_CAP := 60_000

  datatype Candidate = Candidate(modelId: string, taskId: string, diff: string)

  datatype Verdict = Verdict(taskId: string, a: string, b: string, winner: Option<string>, judge: string)

  /** What the judge is shown, without model names. */
  datatype Prompt = Prompt(task: string, first: string, second: string, gold: Option<string>)

  /** The last WINNER line of a reply. */
  datatype Answer = A | B | Tie

  /** Everything a verdict may depend on besides the pair: the diff digest, the judge (a function
      of the prompt), and each task's prompt and reference fix. */
  datatype Bench = Bench(digest: string -> string, reply: (Prompt, string) -> Answer,
                         prompts: map<string, string>, golds: map<string, string>)

  function Capped(s: string): string {
    if |s| <= DIFF_CAP then s else s[..DIFF_CAP]
  }

  function BuildPrompt(bench: Bench, task: string, first: string, second: string): Prompt {
    var gold := if task in bench.golds && bench.golds[task] != "" then Some(Capped(bench.golds[task])) else None;
    Prompt(if task in bench.prompts then bench.prompts[task] else "", Capped(first), Capped(second), gold)
  }

  // --------------------------------------------------------------------- judging

  datatype Side = First | Second | Draw

  function Ask(bench: Bench, task: string, judge: string, first: string, second: string): Answer {
    bench.reply(BuildPrompt(bench, task, first, second), judge)
  }

  /** The judge's considered opinion: the side it names in both orders. */
  function Opinion(bench: Bench, task: string, judge: string, x: string, y: string): Side {
    var there, back := Ask(bench, task, judge, x, y), Ask(bench, task, judge, y, x);
    if there == A && back == B then First else if there == B && back == A then Second else Draw
  }

  function Swapped(s: Side): Side {
    match s
    case First => Second
    case Second => First
    case Draw => Draw
  }

  /** What is stored for a pair: the winning digest, or "" for a tie. The coin decides which
      candidate is shown first. */
  function WinnerDigest(bench: Bench, x: Candidate, y: Candidate, judge: string, coin: bool): string {
    var first, second := if coin then x else y, if coin then y else x;
    var one := Ask(bench, x.taskId, judge, first.diff, second.diff);
    var two := Ask(bench, x.taskId, judge, second.diff, first.diff);
    if one == A && two == B then bench.digest(first.diff)
    else if one == B && two == A then bench.digest(second.diff)
    else ""
  }

  /** Reading a stored winner back for this pair. */
  function WinnerOf(bench: Bench, x: Candidate, y: Candidate, stored: string): Option<string> {
    if stored == bench.digest(x.diff) then Some(x.modelId) else if stored != "" then Some(y.modelId) else None
  }

  /** The winner the debiased comparison names. */
  function Deserved(bench: Bench, x: Candidate, y: Candidate, judge: string): Option<string> {
    match Opinion(bench, x.taskId, judge, x.diff, y.diff)
    case First => Some(x.modelId)
    case Second => Some(y.modelId)
    case Draw => None
  }

  lemma OpinionIsSymmetric(bench: Bench, task: string, judge: string, x: string, y: string)
    ensures Opinion(bench, task, judge, y, x) == Swapped(Opinion(bench, task, judge, x, y))
    ensures Capped(x) == Capped(y) ==> Opinion(bench, task, judge, x, y) == Draw
  {
  }

  /** Neither the coin nor the order of the arguments changes what is stored. */
  lemma StoredIsSymmetric(bench: Bench, x: Candidate, y: Candidate, judge: string, coin: bool, other: bool)
    requires x.taskId == y.taskId
    ensures WinnerDigest(bench, x, y, judge, coin) == WinnerDigest(bench, x, y, judge, other)
    ensures WinnerDigest(bench, x, y, judge, coin) == WinnerDigest(bench, y, x, judge, other)
    ensures WinnerDigest(bench, x, y, judge, coin)
         == match Opinion(bench, x.taskId, judge, x.diff, y.diff)
            case First => bench.digest(x.diff) case Second => bench.digest(y.diff) case Draw => ""
  {
  }

  /** Storing a digest and reading it back gives the deserved winner, unless the two diffs share a
      digest and the second should win: then the first is named. */
  lemma ReadBackExactly(bench: Bench, x: Candidate, y: Candidate, judge: string, coin: bool)
    requires x.taskId == y.taskId && bench.digest(x.diff) != "" && bench.digest(y.diff) != ""
    ensures WinnerOf(bench, x, y, WinnerDigest(bench, x, y, judge, coin)) == Deserved(bench, x, y, judge)
            <==> (|| bench.digest(x.diff) != bench.digest(y.diff)
                  || Opinion(bench, x.taskId, judge, x.diff, y.diff) != Second
                  || x.modelId == y.modelId)
  {
    StoredIsSymmetric(bench, x, y, judge, coin, true);
  }

  ghost predicate ReadsRight(bench: Bench, x: Candidate, y: Candidate, judge: string, coin: bool) {
    WinnerOf(bench, x, y, WinnerDigest(bench, x, y, judge, coin)) == Deserved(bench, x, y, judge)
  }

  /** The judge that prefers one text. */
  function Favouring(bench: Bench, text: string): Bench {
    bench.(reply := (p: Prompt, j: string) => if p.first == text then A else B)
  }

  /** Whatever the judge says, the verdict read back is the deserved one, if and only if the digests
      differ, or the judge is shown the same text twice, or both diffs are one model's. */
  lemma VerdictExactly(bench: Bench, x: Candidate, y: Candidate, judge: string, coin: bool)
    requires x.taskId == y.taskId && bench.digest(x.diff) != "" && bench.digest(y.diff) != ""
    ensures (forall reply :: ReadsRight(bench.(reply := reply), x, y, judge, coin))
            <==> bench.digest(x.diff) != bench.digest(y.diff) || Capped(x.diff) == Capped(y.diff) || x.modelId == y.modelId
  {
    if bench.digest(x.diff) != bench.digest(y.diff) || Capped(x.diff) == Capped(y.diff) || x.modelId == y.modelId {
      forall reply ensures ReadsRight(bench.(reply := reply), x, y, judge, coin) {
        ReadBackExactly(bench.(reply := reply), x, y, judge, coin);
        OpinionIsSymmetric(bench.(reply := reply), x.taskId, judge, x.diff, y.diff);
      }
    } else {
      var against := Favouring(bench, Capped(y.diff));
      ReadBackExactly(against, x, y, judge, coin);
      assert !ReadsRight(bench.(reply := against.reply), x, y, judge, coin);
    }
  }

  /** With one digest for all diffs, a judge that prefers the second diff is read as preferring the first. */
  lemma CollisionNamesTheFirst(coin: bool)
    ensures var bench := Bench((d: string) => "d", (p: Prompt, j: string) => if p.first == "y" then A else B, map[], map[]);
            var x, y := Candidate("m", "t", "x"), Candidate("n", "t", "y");
            && Deserved(bench, x, y, "j") == Some("n")
            && WinnerOf(bench, x, y, WinnerDigest(bench, x, y, "j", coin)) == Some("m")
  {
  }

  /** A judge that always names the same position decides nothing. */
  lemma PositionBiasOnlyTies(bench: Bench, x: Candidate, y: Candidate, judge: string, coin: bool, habit: Answer)
    requires forall p, j :: bench.reply(p, j) == habit
    requires bench.digest(x.diff) != ""
    ensures WinnerOf(bench, x, y, WinnerDigest(bench, x, y, judge, coin)) == None
  {
  }

  // ------------------------------------------------------------------- the cache

  type Cache = map<string, string>

  /** The name a pair is cached under; SHA-256 of it is modelled by the digested text. */
  function KeyText(task: string, lo: string, hi: string, judge: string): string {
    task + "|" + lo + "|" + hi + "|" + RUBRIC_VERSION + "|" + judge
  }

  function CacheKey(bench: Bench, x: Candidate, y: Candidate, judge: string): string {
    var p, q := bench.digest(x.diff), bench.digest(y.diff);
    if Before(q, p) then KeyText(x.taskId, q, p, judge) else KeyText(x.taskId, p, q, judge)
  }

  lemma BarInside(a: string, b: string, c: string, d: string)
    requires a + "|" + b == c + "|" + d && |b| < |d|
    ensures '|' in d
  {
    var s := a + "|" + b;
    var i := |s| - |b| - 1;
    assert s[i] == '|' && s[i] == d[i - |c| - 1];
  }

  /** The last bar splits a text in one way. */
  lemma LastBar(a: string, b: string, c: string, d: string)
    requires a + "|" + b == c + "|" + d && '|' !in b && '|' !in d
    ensures a == c && b == d
  {
    var s := a + "|" + b;
    assert |b| == |d| by {
      if |b| < |d| { BarInside(a, b, c, d); }
      if |d| < |b| { BarInside(c, d, a, b); }
    }
    assert s[..|a|] == a && s[..|a|] == c;
    assert s[|a| + 1..] == b && s[|a| + 1..] == d;
  }

  /** Pairs with one cache key agree in task, digests and judge. */
  lemma KeyTextInjective(t: string, l: string, h: string, j: string, t': string, l': string, h': string, j': string)
    requires KeyText(t, l, h, j) == KeyText(t', l', h', j')
    requires '|' !in l + h + j && '|' !in l' + h' + j'
    ensures t == t' && l == l' && h == h' && j == j'
  {
    LastBar(t + "|" + l + "|" + h + "|" + RUBRIC_VERSION, j, t' + "|" + l' + "|" + h' + "|" + RUBRIC_VERSION, j');
    LastBar(t + "|" + l + "|" + h, RUBRIC_VERSION, t' + "|" + l' + "|" + h', RUBRIC_VERSION);
    LastBar(t + "|" + l, h, t' + "|" + l', h');
    LastBar(t, l, t', l');
  }

  /** The digest tells the diffs of a benchmark apart and is written in hexadecimal. */
  ghost predicate Distinguishes(bench: Bench, diffs: set<string>) {
    && (forall d :: d in diffs ==> bench.digest(d) != "" && '|' !in bench.digest(d))
    && (forall d, e :: d in diffs && e in diffs && bench.digest(d) == bench.digest(e) ==> d == e)
  }

  /** The candidates and judges a benchmark run can meet. */
  predicate Comparable(diffs: set<string>, x: Candidate, y: Candidate, judge: string) {
    x.taskId == y.taskId && x.diff in diffs && y.diff in diffs && '|' !in judge
  }

  /** Every cached verdict is what judging the pair would store. */
  ghost predicate Faithful(bench: Bench, diffs: set<string>, cache: Cache) {
    forall x, y, judge {:trigger CacheKey(bench, x, y, judge)} ::
      Comparable(diffs, x, y, judge) && CacheKey(bench, x, y, judge) in cache ==>
        cache[CacheKey(bench, x, y, judge)] == WinnerDigest(bench, x, y, judge, true)
  }

  lemma SameKeySameVerdict(bench: Bench, diffs: set<string>, x: Candidate, y: Candidate, judge: string,
                           x': Candidate, y': Candidate, judge': string)
    requires Distinguishes(bench, diffs) && Comparable(diffs, x, y, judge) && Comparable(diffs, x', y', judge')
    requires CacheKey(bench, x, y, judge) == CacheKey(bench, x', y', judge')
    ensures WinnerDigest(bench, x, y, judge, true) == WinnerDigest(bench, x', y', judge', true)
  {
    var p, q, p', q' := bench.digest(x.diff), bench.digest(y.diff), bench.digest(x'.diff), bench.digest(y'.diff);
    KeyTextInjective(x.taskId, if Before(q, p) then q else p, if Before(q, p) then p else q, judge,
                     x'.taskId, if Before(q', p') then q' else p', if Before(q', p') then p' else q', judge');
    StoredIsSymmetric(bench, x, y, judge, true, true);
    StoredIsSymmetric(bench, x', y', judge', true, true);
    assert (x.diff == x'.diff && y.diff == y'.diff) || (x.diff == y'.diff && y.diff == x'.diff);
    OpinionIsSymmetric(bench, x.taskId, judge, x.diff, y.diff);
  }

  lemma PutKeepsFaith(bench: Bench, diffs: set<string>, cache: Cache, x: Candidate, y: Candidate, judge: string)
    requires Distinguishes(bench, diffs) && Faithful(bench, diffs, cache) && Comparable(diffs, x, y, judge)
    ensures Faithful(bench, diffs, cache[CacheKey(bench, x, y, judge) := WinnerDigest(bench, x, y, judge, true)])
  {
    var key := CacheKey(bench, x, y, judge);
    var after := cache[key := WinnerDigest(bench, x, y, judge, true)];
    forall x', y', judge' {:trigger CacheKey(bench, x', y', judge')}
      | Comparable(diffs, x', y', judge') && CacheKey(bench, x', y', judge') in after
      ensures after[CacheKey(bench, x', y', judge')] == WinnerDigest(bench, x', y', judge', true)
    {
      if CacheKey(bench, x', y', judge') == key {
        SameKeySameVerdict(bench, diffs, x, y, judge, x', y', judge');
      }
    }
  }

  // -------------------------------------------------------------- choosing a judge

  function RemovePrefix(s: string, p: string): string {
    if StartsWith(s, p) then s[|p|..] else s
  }

  /** The command-line name of a model id. */
  function CliName(modelId: string): string {
    var s := RemovePrefix(modelId, "anthropic/");
    seq(|s|, i requires 0 <= i < |s| => if s[i] == '.' then '-' else s[i])
  }

  function RunsAs(names: map<string, string>, modelId: string): string {
    if modelId in names then names[modelId] else CliName(modelId)
  }

  /** The judge for a pair: the preferred one, else the fallback, never a model of the pair. */
  function PickJudge(a: string, b: string, judge: string, fallback: string, names: map<string, string>): (who: Option<string>)
    ensures who.Some? ==> who.value !in {RunsAs(names, a), RunsAs(names, b)} && who.value in {judge, fallback}
    ensures who.None? <==> {judge, fallback} <= {RunsAs(names, a), RunsAs(names, b)}
    ensures judge !in {RunsAs(names, a), RunsAs(names, b)} ==> who == Some(judge)
  {
    var pair := {RunsAs(names, a), RunsAs(names, b)};
    if judge !in pair then Some(judge) else if fallback !in pair then Some(fallback) else None
  }

  // ------------------------------------------------------------------- all the pairs

  /** The candidates of one task that changed something, in order. */
  function OfTask(cs: seq<Candidate>, task: string): (r: seq<Candidate>)
    ensures forall c :: c in r <==> c in cs && c.taskId == task && !Blank(c.diff)
  {
    if cs == [] then []
    else
      var rest, last := OfTask(cs[..|cs| - 1], task), cs[|cs| - 1];
      assert cs == cs[..|cs| - 1] + [last];
      if last.taskId == task && !Blank(last.diff) then rest + [last] else rest
  }

  type Pair = (Candidate, Candidate)

  /** `itertools.combinations(cs, 2)`. */
  function Pairs(cs: seq<Candidate>): (r: seq<Pair>)
    ensures 2 * |r| == |cs| * (|cs| - 1)
    ensures forall p :: p in r ==> p.0 in cs && p.1 in cs
  {
    if cs == [] then []
    else
      var first := seq(|cs| - 1, i requires 0 <= i < |cs| - 1 => (cs[0], cs[i + 1]));
      first + Pairs(cs[1..])
  }

  /** A pair as judged without cache or coin. */
  function Judged(bench: Bench, p: Pair, who: string): Verdict {
    Verdict(p.0.taskId, p.0.modelId, p.1.modelId, Deserved(bench, p.0, p.1, who), who)
  }

  datatype Panel = Panel(judge: string, fallback: string, names: map<string, string>)

  function Pick(panel: Panel, p: Pair): Option<string> {
    PickJudge(p.0.modelId, p.1.modelId, panel.judge, panel.fallback, panel.names)
  }

  /** The verdicts of a list of pairs, in order, without those nobody may judge. */
  function Verdicts(bench: Bench, panel: Panel, pairs: seq<Pair>): (r: seq<Verdict>)
    ensures |r| <= |pairs|
  {
    if pairs == [] then []
    else
      var rest, last := Verdicts(bench, panel, pairs[..|pairs| - 1]), pairs[|pairs| - 1];
      var who := Pick(panel, last);
      if who.None? then rest else rest + [Judged(bench, last, who.value)]
  }

  /** Every pair of every task, tasks in order. */
  function AllPairs(cs: seq<Candidate>, tasks: seq<string>): seq<Pair> {
    if tasks == [] then [] else AllPairs(cs, tasks[..|tasks| - 1]) + Pairs(OfTask(cs, tasks[|tasks| - 1]))
  }

  lemma {:induction false} VerdictsConcat(bench: Bench, panel: Panel, p: seq<Pair>, q: seq<Pair>)
    ensures Verdicts(bench, panel, p + q) == Verdicts(bench, panel, p) + Verdicts(bench, panel, q)
    decreases |q|
  {
    if q == [] {
      assert p + q == p;
    } else {
      var n := |q| - 1;
      assert (p + q)[..|p + q| - 1] == p + q[..n];
      VerdictsConcat(bench, panel, p, q[..n]);
    }
  }

  /** A verdict is the deserved one of two candidates of its task, by the judge chosen for them. */
  ghost predicate IsDeserved(bench: Bench, panel: Panel, cs: seq<Candidate>, v: Verdict) {
    exists p :: p in Pairs(OfTask(cs, v.taskId)) && Pick(panel, p) == Some(v.judge) && v == Judged(bench, p, v.judge)
  }

  lemma {:induction false} VerdictsAreJudged(bench: Bench, panel: Panel, pairs: seq<Pair>, v: Verdict) returns (p: Pair)
    requires v in Verdicts(bench, panel, pairs)
    ensures p in pairs && Pick(panel, p) == Some(v.judge) && v == Judged(bench, p, v.judge)
    decreases |pairs|
  {
    p := pairs[|pairs| - 1];
    if v in Verdicts(bench, panel, pairs[..|pairs| - 1]) {
      p := VerdictsAreJudged(bench, panel, pairs[..|pairs| - 1], v);
    }
  }

  lemma TaskIsDeserved(bench: Bench, panel: Panel, cs: seq<Candidate>, task: string, pairs: seq<Pair>, v: Verdict)
    requires forall p :: p in pairs ==> p in Pairs(OfTask(cs, task))
    requires v in Verdicts(bench, panel, pairs)
    ensures IsDeserved(bench, panel, cs, v)
  {
    var p := VerdictsAreJudged(bench, panel, pairs, v);
    assert p.0.taskId == task;
  }

  /** Nobody judges its own output. */
  lemma {:induction false} NoSelfJudging(bench: Bench, panel: Panel, pairs: seq<Pair>, v: Verdict)
    requires v in Verdicts(bench, panel, pairs)
    ensures v.judge !in {RunsAs(panel.names, v.a), RunsAs(panel.names, v.b)}
    ensures v.winner in {None, Some(v.a), Some(v.b)}
    decreases |pairs|
  {
    if pairs != [] && v in Verdicts(bench, panel, pairs[..|pairs| - 1]) {
      NoSelfJudging(bench, panel, pairs[..|pairs| - 1], v);
    }
  }

  // --------------------------------------------------------------- the judging loops

  /** The random generator: what the n-th draw yields. */
  datatype Rng = Rng(coin: nat -> bool, sample: (nat, seq<Pair>, nat) -> seq<Pair>)

  /** The cache directory, or no cache at all. */
  class VerdictCache {
    const enabled: bool
    var entries: Cache

    constructor (enabled: bool, entries: Cache)
      ensures this.enabled == enabled && this.entries == entries
    {
      this.enabled, this.entries := enabled, entries;
    }

    /** Judges a pair in both orders, unless its verdict is cached. Whatever the coin, and whether
        the cache is warm, cold or absent, the verdict is the deserved one. */
    method JudgePair(bench: Bench, x: Candidate, y: Candidate, judge: string, coin: bool, ghost diffs: set<string>)
      returns (v: Verdict, drawn: bool)
      requires Distinguishes(bench, diffs) && Faithful(bench, diffs, entries) && Comparable(diffs, x, y, judge)
      modifies this
      ensures Faithful(bench, diffs, entries)
      ensures v == Judged(bench, (x, y), judge)
      ensures drawn <==> !(enabled && CacheKey(bench, x, y, judge) in old(entries))
      ensures entries == if drawn && enabled
                         then old(entries)[CacheKey(bench, x, y, judge) := WinnerDigest(bench, x, y, judge, true)]
                         else old(entries)
    {
      ReadBackExactly(bench, x, y, judge, coin);
      ReadBackExactly(bench, x, y, judge, true);
      StoredIsSymmetric(bench, x, y, judge, coin, true);
      OpinionIsSymmetric(bench, x.taskId, judge, x.diff, y.diff);
      var key := CacheKey(bench, x, y, judge);
      var stored;
      drawn := !(enabled && key in entries);
      if drawn {
        var first, second := if coin then x else y, if coin then y else x;
        var one := bench.reply(BuildPrompt(bench, x.taskId, first.diff, second.diff), judge);
        var two := bench.reply(BuildPrompt(bench, x.taskId, second.diff, first.diff), judge);
        if one == A && two == B {
          stored := bench.digest(first.diff);
        } else if one == B && two == A {
          stored := bench.digest(second.diff);
        } else {
          stored := "";
        }
        if enabled {
          PutKeepsFaith(bench, diffs, entries, x, y, judge);
          entries := entries[key := stored];
        }
      } else {
        stored := entries[key];
      }
      v := Verdict(x.taskId, x.modelId, y.modelId, WinnerOf(bench, x, y, stored), judge);
    }

    /** The pairs of one task. */
    method JudgePairs(bench: Bench, panel: Panel, pairs: seq<Pair>, rng: Rng, position: nat, ghost diffs: set<string>)
      returns (verdicts: seq<Verdict>, skipped: nat, next: nat)
      requires Distinguishes(bench, diffs) && Faithful(bench, diffs, entries)
      requires Judgeable(diffs, pairs, panel)
      modifies this
      ensures Faithful(bench, diffs, entries)
      ensures verdicts == Verdicts(bench, panel, pairs) && |verdicts| + skipped == |pairs|
    {
      verdicts, skipped, next := [], 0, position;
      for i := 0 to |pairs|
        invariant Faithful(bench, diffs, entries)
        invariant verdicts == Verdicts(bench, panel, pairs[..i]) && |verdicts| + skipped == i
      {
        assert pairs[..i + 1][..i] == pairs[..i] && pairs[i] in pairs;
        var (x, y) := pairs[i];
        var who := PickJudge(x.modelId, y.modelId, panel.judge, panel.fallback, panel.names);
        if who.None? {
          skipped := skipped + 1;
        } else {
          var v, drawn := JudgePair(bench, x, y, who.value, rng.coin(next), diffs);
          verdicts := verdicts + [v];
          next := if drawn then next + 1 else next;
        }
      }
      assert pairs[..|pairs|] == pairs;
    }

    /** Every pair of passing candidates within each task. Every verdict is the deserved one of a
        pair of its task. While no task has more pairs than the cap, the verdicts do not depend on
        the random numbers or on what is cached. */
    method JudgeAll(bench: Bench, panel: Panel, cs: seq<Candidate>, cap: Option<nat>, rng: Rng, ghost diffs: set<string>)
      returns (verdicts: seq<Verdict>, skipped: nat)
      requires Distinguishes(bench, diffs) && Faithful(bench, diffs, entries)
      requires forall c :: c in cs ==> c.diff in diffs
      requires '|' !in panel.judge && '|' !in panel.fallback
      requires Samples(rng)
      modifies this
      ensures Faithful(bench, diffs, entries)
      ensures forall v :: v in verdicts ==> IsDeserved(bench, panel, cs, v)
      ensures Uncapped(cs, cap) ==> verdicts == Verdicts(bench, panel, AllPairs(cs, Tasks(cs)))
      ensures Uncapped(cs, cap) ==> |verdicts| + skipped == |AllPairs(cs, Tasks(cs))|
    {
      verdicts, skipped := [], 0;
      var tasks, next := Tasks(cs), 0;
      for i := 0 to |tasks|
        invariant Faithful(bench, diffs, entries)
        invariant forall v :: v in verdicts ==> IsDeserved(bench, panel, cs, v)
        invariant Uncapped(cs, cap) ==> verdicts == Verdicts(bench, panel, AllPairs(cs, tasks[..i]))
        invariant Uncapped(cs, cap) ==> |verdicts| + skipped == |AllPairs(cs, tasks[..i])|
      {
        assert tasks[..i + 1][..i] == tasks[..i];
        var pairs := Pairs(OfTask(cs, tasks[i]));
        if cap.Some? && |pairs| > cap.value {
          assert !Uncapped(cs, cap);
          pairs := rng.sample(next, pairs, cap.value);
          next := next + 1;
        }
        TaskIsJudgeable(diffs, cs, tasks[i], panel, pairs);
        var vs, s, n := JudgePairs(bench, panel, pairs, rng, next, diffs);
        VerdictsConcat(bench, panel, AllPairs(cs, tasks[..i]), pairs);
        forall v | v in vs ensures IsDeserved(bench, panel, cs, v) {
          TaskIsDeserved(bench, panel, cs, tasks[i], pairs, v);
        }
        verdicts, skipped, next := verdicts + vs, skipped + s, n;
      }
      assert tasks[..|tasks|] == tasks;
    }
  }

  /** A sample is drawn from the pairs it is given. */
  ghost predicate Samples(rng: Rng) {
    forall n, pairs, k, p {:trigger p in rng.sample(n, pairs, k)} :: p in rng.sample(n, pairs, k) ==> p in pairs
  }

  lemma TaskIsJudgeable(diffs: set<string>, cs: seq<Candidate>, task: string, panel: Panel, pairs: seq<Pair>)
    requires (forall c :: c in cs ==> c.diff in diffs) && '|' !in panel.judge && '|' !in panel.fallback
    requires forall p :: p in pairs ==> p in Pairs(OfTask(cs, task))
    ensures Judgeable(diffs, pairs, panel)
  {
  }

  ghost predicate Judgeable(diffs: set<string>, pairs: seq<Pair>, panel: Panel) {
    && '|' !in panel.judge && '|' !in panel.fallback
    && forall p :: p in pairs ==> p.0.taskId == p.1.taskId && p.0.diff in diffs && p.1.diff in diffs
  }

  /** No task has more pairs than the cap allows. */
  predicate Uncapped(cs: seq<Candidate>, cap: Option<nat>) {
    cap.Some? ==> forall i :: 0 <= i < |Tasks(cs)| ==> |Pairs(OfTask(cs, Tasks(cs)[i]))| <= cap.value
  }

  /** Inserting a task into a sorted list without repeats. */
  function Insert(tasks: seq<string>, task: string): seq<string> {
    if tasks == [] then [task]
    else if tasks[0] == task then tasks
    else if Before(task, tasks[0]) then [task] + tasks
    else [tasks[0]] + Insert(tasks[1..], task)
  }

  /** The tasks with a non-blank candidate, in order. */
  function Tasks(cs: seq<Candidate>): seq<string> {
    if cs == [] then []
    else
      var rest, last := Tasks(cs[..|cs| - 1]), cs[|cs| - 1];
      if Blank(last.diff) then rest else Insert(rest, last.taskId)
  }

  predicate Ascending(tasks: seq<string>) {
    forall i, j :: 0 <= i < j < |tasks| ==> Before(tasks[i], tasks[j])
  }

  lemma {:induction false} InsertExactly(tasks: seq<string>, task: string)
    requires Ascending(tasks)
    ensures Ascending(Insert(tasks, task))
    ensures forall t :: t in Insert(tasks, task) <==> t in tasks || t == task
    decreases |tasks|
  {
    if tasks != [] {
      BeforeTotal(task, tasks[0]);
      assert tasks == [tasks[0]] + tasks[1..];
      if Before(task, tasks[0]) {
        forall j | 0 < j < |tasks| ensures Before(task, tasks[j]) {
          BeforeTransitive(task, tasks[0], tasks[j]);
        }
      } else if tasks[0] != task {
        InsertExactly(tasks[1..], task);
        var rest := Insert(tasks[1..], task);
        forall j | 0 <= j < |rest| ensures Before(tasks[0], rest[j]) {
          assert rest[j] in rest;
        }
      }
    }
  }

  /** The tasks are exactly those with a change to judge, each once and in order. */
  lemma {:induction false} TasksExactly(cs: seq<Candidate>)
    ensures Ascending(Tasks(cs))
    ensures forall t :: t in Tasks(cs) <==> OfTask(cs, t) != []
    decreases |cs|
  {
    if cs != [] {
      TasksExactly(cs[..|cs| - 1]);
      InsertExactly(Tasks(cs[..|cs| - 1]), cs[|cs| - 1].taskId);
    }
  }

  /** Every two candidates of a list meet. */
  lemma {:induction false} EveryPairMeets(cs: seq<Candidate>, i: nat, j: nat)
    requires i < j < |cs|
    ensures (cs[i], cs[j]) in Pairs(cs)
    decreases |cs|
  {
    if i == 0 {
      assert Pairs(cs)[j - 1] == (cs[0], cs[j]);
    } else {
      EveryPairMeets(cs[1..], i - 1, j - 1);
    }
  }

  // -------------------------------------------------------------------- the tally

  /** A pair of models in the order the tally files it under. */
  function GameKey(a: string, b: string): (string, string) {
    if Before(b, a) then (b, a) else (a, b)
  }

  function Models(vs: seq<Verdict>): set<string> {
    (set v | v in vs :: v.a) + (set v | v in vs :: v.b)
  }

  function Points(v: Verdict, m: string): real {
    match v.winner
    case Some(w) => if w == m then 1.0 else 0.0
    case None => (if v.a == m then 0.5 else 0.0) + (if v.b == m then 0.5 else 0.0)
  }

  /** The points of a model over a list of verdicts. */
  function Earned(vs: seq<Verdict>, m: string): real {
    if vs == [] then 0.0 else Earned(vs[..|vs| - 1], m) + Points(vs[|vs| - 1], m)
  }

  function Met(vs: seq<Verdict>, key: (string, string)): nat {
    if vs == [] then 0
    else Met(vs[..|vs| - 1], key) + if GameKey(vs[|vs| - 1].a, vs[|vs| - 1].b) == key then 1 else 0
  }

  predicate Sane(v: Verdict) {
    v.winner in {None, Some(v.a), Some(v.b)}
  }

  /** One verdict's points: a win, or half a win to each side. */
  method Credit(wins: map<string, real>, v: Verdict) returns (after: map<string, real>)
    requires v.a in wins && v.b in wins && Sane(v)
    ensures after.Keys == wins.Keys && forall m :: m in wins ==> after[m] == wins[m] + Points(v, m)
    ensures SumOf(after) == SumOf(wins) + 1.0
  {
    match v.winner {
      case None =>
        SumOfUpdate(wins, v.a, wins[v.a] + 0.5);
        after := wins[v.a := wins[v.a] + 0.5];
        SumOfUpdate(after, v.b, after[v.b] + 0.5);
        after := after[v.b := after[v.b] + 0.5];
      case Some(w) =>
        SumOfUpdate(wins, w, wins[w] + 1.0);
        after := wins[w := wins[w] + 1.0];
    }
  }

  ghost predicate Counts(games: map<(string, string), nat>, vs: seq<Verdict>) {
    forall key :: (key in games <==> Met(vs, key) > 0) && (key in games ==> games[key] == Met(vs, key))
  }

  ghost predicate Credits(wins: map<string, real>, vs: seq<Verdict>, prior: real) {
    forall m :: m in wins ==> wins[m] == prior + Earned(vs, m)
  }

  lemma CountOne(games: map<(string, string), nat>, vs: seq<Verdict>, v: Verdict)
    requires Counts(games, vs)
    ensures var key := GameKey(v.a, v.b);
            Counts(games[key := (if key in games then games[key] else 0) + 1], vs + [v])
  {
    assert (vs + [v])[..|vs|] == vs;
  }

  lemma CreditOne(wins: map<string, real>, after: map<string, real>, vs: seq<Verdict>, v: Verdict, prior: real)
    requires Credits(wins, vs, prior) && after.Keys == wins.Keys
    requires forall m :: m in wins ==> after[m] == wins[m] + Points(v, m)
    ensures Credits(after, vs + [v], prior)
  {
    assert (vs + [v])[..|vs|] == vs;
  }

  /** The wins and games a fit starts from: each model's own points over the prior, each pair's
      number of meetings, and nothing lost: all points sum to the prior mass and one per verdict. */
  method Tally(vs: seq<Verdict>, prior: real) returns (wins: map<string, real>, games: map<(string, string), nat>)
    requires forall i :: 0 <= i < |vs| ==> Sane(vs[i])
    ensures wins.Keys == Models(vs) && Credits(wins, vs, prior) && Counts(games, vs)
    ensures SumOf(wins) == Copies(|Models(vs)|, prior) + |vs| as real
  {
    var models := Models(vs);
    wins := map m | m in models :: prior;
    games := map[];
    assert wins.Keys == models;
    SumOfConstant(wins, |models|, prior);
    for i := 0 to |vs|
      invariant wins.Keys == models && Credits(wins, vs[..i], prior) && Counts(games, vs[..i])
      invariant SumOf(wins) == Copies(|models|, prior) + i as real
    {
      var v := vs[i];
      assert vs[..i + 1] == vs[..i] + [v];
      assert v.a in models && v.b in models by { assert v in vs; }
      CountOne(games, vs[..i], v);
      var key := GameKey(v.a, v.b);
      games := games[key := (if key in games then games[key] else 0) + 1];
      var after := Credit(wins, v);
      CreditOne(wins, after, vs[..i], v, prior);
      wins := after;
    }
    assert vs[..|vs|] == vs;
  }
}
