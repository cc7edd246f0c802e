/** Publishers that race on the state branch. Each reads the branch head, computes the next
    aggregate and commits it on what it read; the branch moves by fast-forward only. */
module PreviewChain {
  import opened Text
  import opened PreviewPaths
  import opened PreviewSite

  /** A commit object: what it was built on, from which observations, and its tree. */
  datatype Commit = Commit(parent: Option<nat>, inputs: Inputs, files: Files)

  /** Commit objects in the order they were created, the branch, what each running publisher has
      read (the branch head, or that there was no branch), and the commits deployed so far. */
  datatype Repo = Repo(commits: seq<Commit>, head: Option<nat>, loaded: map<nat, Option<nat>>, deployed: seq<nat>)

  datatype Step =
    | Load(publisher: nat)
    | Save(publisher: nat, inputs: Inputs)
    | Quit(publisher: nat)
    | Deploy(expected: nat, prs: Pulls, now: int, candidate: Option<(string, string)>)

  /** Git lets a commit refer only to commits that exist. */
  predicate WellFounded(commits: seq<Commit>) {
    forall k {:trigger commits[k]} :: 0 <= k < |commits| && commits[k].parent.Some? ==> commits[k].parent.value < k
  }

  predicate IsAncestor(commits: seq<Commit>, a: nat, b: nat)
    requires WellFounded(commits) && b < |commits|
    decreases b
  {
    a == b || (commits[b].parent.Some? && IsAncestor(commits, a, commits[b].parent.value))
  }

  /** What a publisher starts from. */
  function FilesAt(commits: seq<Commit>, at: Option<nat>): Files
    requires at.Some? ==> at.value < |commits|
  {
    if at.None? then map[] else commits[at.value].files
  }

  function StateAt(commits: seq<Commit>, at: Option<nat>, url: string): State
    requires at.Some? ==> at.value < |commits|
  {
    var files := FilesAt(commits, at);
    if STATE in files && files[STATE].Document? then files[STATE].state else EmptyState(url)
  }

  ghost predicate Readable(commits: seq<Commit>, at: Option<nat>, url: string)
    requires at.Some? ==> at.value < |commits|
  {
    at.Some? ==> Loads(FilesAt(commits, at), url)
  }

  /** The branch update the host allows: creating a missing branch, or moving it to a descendant. */
  predicate FastForward(commits: seq<Commit>, head: Option<nat>, parent: Option<nat>, id: nat)
    requires WellFounded(commits) && id < |commits|
  {
    if parent.None? then head.None? else head.Some? && IsAncestor(commits, head.value, id)
  }

  ghost predicate InRange(r: Repo) {
    && WellFounded(r.commits)
    && (r.head.Some? ==> r.head.value < |r.commits|)
    && (forall c {:trigger r.loaded[c]} :: c in r.loaded && r.loaded[c].Some? ==> r.loaded[c].value < |r.commits|)
  }

  /** One atomic action of one publisher. A publisher that refuses changes nothing. */
  ghost function Next(r: Repo, step: Step, url: string): Repo
    requires InRange(r)
  {
    match step
    case Load(c) =>
      if Readable(r.commits, r.head, url) then r.(loaded := r.loaded[c := r.head]) else r
    case Quit(c) =>
      r.(loaded := r.loaded - {c})
    case Save(c, i) =>
      if c !in r.loaded || !Legal(i, StateAt(r.commits, r.loaded[c], url).previews) then r
      else Saved(r, c, i, Prepare(StateAt(r.commits, r.loaded[c], url), FilesAt(r.commits, r.loaded[c]), i))
    case Deploy(expected, prs, now, candidate) =>
      if Passes(r, expected, prs, now, candidate, url) then r.(deployed := r.deployed + [expected]) else r
  }

  /** The guard on the commit that is to be deployed. */
  predicate Passes(r: Repo, expected: nat, prs: Pulls, now: int, candidate: Option<(string, string)>, url: string) {
    && expected < |r.commits|
    && var s := StateAt(r.commits, Some(expected), url);
       (forall n :: n in s.previews ==> n in prs) && Guard(r.head, expected, s, url, prs, now, candidate)
  }

  ghost function Saved(r: Repo, c: nat, i: Inputs, result: Result<(State, Files)>): Repo
    requires InRange(r) && c in r.loaded
  {
    if result.Unsafe? then r.(loaded := r.loaded - {c})
    else
      var commits := r.commits + [Commit(r.loaded[c], i, result.value.1)];
      ParentsExist(r, c, commits[|r.commits|]);
      var moved := FastForward(commits, r.head, r.loaded[c], |r.commits|);
      Repo(commits, if moved then Some(|r.commits|) else r.head, r.loaded - {c}, r.deployed)
  }

  lemma ParentsExist(r: Repo, c: nat, commit: Commit)
    requires InRange(r) && c in r.loaded && commit.parent == r.loaded[c]
    ensures WellFounded(r.commits + [commit])
  {
  }

  // ------------------------------------------------------------------- ancestry

  lemma {:induction false} AncestorsAreOlder(commits: seq<Commit>, a: nat, b: nat)
    requires WellFounded(commits) && b < |commits| && IsAncestor(commits, a, b)
    ensures a <= b
    decreases b
  {
    if a != b {
      AncestorsAreOlder(commits, a, commits[b].parent.value);
    }
  }

  /** New commit objects change no ancestry between old ones. */
  lemma {:induction false} AncestryIsStable(commits: seq<Commit>, more: seq<Commit>, a: nat, b: nat)
    requires WellFounded(commits) && WellFounded(more) && commits <= more && b < |commits|
    ensures IsAncestor(more, a, b) <==> IsAncestor(commits, a, b)
    decreases b
  {
    assert more[b] == commits[b];
    if commits[b].parent.Some? {
      AncestryIsStable(commits, more, a, commits[b].parent.value);
    }
  }

  // ------------------------------------------------------------------ invariant

  /** Every commit was computed from its parent, and a publisher's base is on the branch. */
  ghost predicate Inv(r: Repo, url: string) {
    && InRange(r)
    && AllBuilt(r.commits, url)
    && (forall c {:trigger r.loaded[c]} :: c in r.loaded ==> OnBranch(r, r.loaded[c], url))
  }

  ghost predicate AllBuilt(commits: seq<Commit>, url: string)
    requires WellFounded(commits)
  {
    forall k {:trigger commits[k]} :: 0 <= k < |commits| ==> Built(commits, k, url)
  }

  ghost predicate OnBranch(r: Repo, at: Option<nat>, url: string)
    requires InRange(r) && (at.Some? ==> at.value < |r.commits|)
  {
    && Readable(r.commits, at, url)
    && (at.Some? ==> r.head.Some? && IsAncestor(r.commits, at.value, r.head.value))
  }

  /** A run over the tree at `at` with these inputs wrote this tree. */
  ghost predicate Wrote(commits: seq<Commit>, at: Option<nat>, i: Inputs, tree: Files, url: string)
    requires at.Some? ==> at.value < |commits|
  {
    var s, files := StateAt(commits, at, url), FilesAt(commits, at);
    && Source(s, files, url) && Legal(i, s.previews)
    && Prepare(s, files, i).Ok? && tree == Prepare(s, files, i).value.1
  }

  /** Commit `k` holds what a run writes over the tree of its parent. */
  ghost predicate Built(commits: seq<Commit>, k: nat, url: string)
    requires WellFounded(commits) && k < |commits|
  {
    Wrote(commits, commits[k].parent, commits[k].inputs, commits[k].files, url)
  }

  lemma ReadIsSource(commits: seq<Commit>, at: Option<nat>, url: string)
    requires (at.Some? ==> at.value < |commits|) && Readable(commits, at, url)
    ensures Source(StateAt(commits, at, url), FilesAt(commits, at), url)
  {
  }

  lemma BuiltIsStable(commits: seq<Commit>, more: seq<Commit>, k: nat, url: string)
    requires WellFounded(commits) && WellFounded(more) && commits <= more && k < |commits| && Built(commits, k, url)
    ensures Built(more, k, url)
  {
    assert more[k] == commits[k];
    var parent := commits[k].parent;
    assert parent.Some? ==> more[parent.value] == commits[parent.value];
  }

  /** The branch moves exactly when nobody else has moved it since the publisher read it. */
  lemma MovesExactly(r: Repo, url: string, c: nat, commits: seq<Commit>)
    requires Inv(r, url) && c in r.loaded
    requires WellFounded(commits) && |commits| == |r.commits| + 1 && r.commits <= commits
    requires commits[|r.commits|].parent == r.loaded[c]
    ensures FastForward(commits, r.head, r.loaded[c], |r.commits|) <==> r.head == r.loaded[c]
  {
    var id := |r.commits|;
    assert OnBranch(r, r.loaded[c], url);
    if r.loaded[c].Some? {
      var p, h := r.loaded[c].value, r.head.value;
      AncestorsAreOlder(r.commits, p, h);
      assert IsAncestor(commits, h, id) <==> IsAncestor(commits, h, p);
      if IsAncestor(commits, h, p) {
        AncestorsAreOlder(commits, h, p);
      }
    }
  }

  /** What one action does to the branch: nothing, or one commit on top of exactly the old head,
      computed from exactly its tree. */
  lemma HeadStep(r: Repo, step: Step, url: string)
    requires Inv(r, url)
    ensures var after := Next(r, step, url);
            || after.head == r.head
            || (&& step.Save? && after.head == Some(|r.commits|) && |after.commits| == |r.commits| + 1
                && after.commits[|r.commits|].parent == r.head && after.commits[|r.commits|].inputs == step.inputs)
    ensures r.commits <= Next(r, step, url).commits
  {
    if step.Save? && step.publisher in r.loaded && Legal(step.inputs, StateAt(r.commits, r.loaded[step.publisher], url).previews) {
      var c := step.publisher;
      var result := Prepare(StateAt(r.commits, r.loaded[c], url), FilesAt(r.commits, r.loaded[c]), step.inputs);
      if result.Ok? {
        var commits := r.commits + [Commit(r.loaded[c], step.inputs, result.value.1)];
        ParentsExist(r, c, commits[|r.commits|]);
        MovesExactly(r, url, c, commits);
      }
    }
  }

  /** A publisher's base stays on the branch whatever happens to the branch. */
  lemma BasesStay(r: Repo, after: Repo, at: Option<nat>, url: string)
    requires InRange(r) && InRange(after) && (at.Some? ==> at.value < |r.commits|) && OnBranch(r, at, url)
    requires r.commits <= after.commits
    requires after.head == r.head
             || (after.head == Some(|r.commits|) && |after.commits| == |r.commits| + 1
                 && after.commits[|r.commits|].parent == r.head)
    ensures OnBranch(after, at, url)
  {
    if at.Some? {
      assert after.commits[at.value] == r.commits[at.value];
      AncestryIsStable(r.commits, after.commits, at.value, r.head.value);
    }
  }

  lemma OneMoreBuilt(commits: seq<Commit>, commit: Commit, url: string)
    requires WellFounded(commits) && AllBuilt(commits, url) && (commit.parent.Some? ==> commit.parent.value < |commits|)
    requires Wrote(commits, commit.parent, commit.inputs, commit.files, url)
    ensures WellFounded(commits + [commit]) && AllBuilt(commits + [commit], url)
  {
    var more := commits + [commit];
    forall k | 0 <= k < |more| ensures Built(more, k, url) {
      if k < |commits| {
        BuiltIsStable(commits, more, k, url);
      } else {
        assert FilesAt(more, commit.parent) == FilesAt(commits, commit.parent);
      }
    }
  }

  lemma SavedKeeps(r: Repo, c: nat, i: Inputs, url: string)
    requires Inv(r, url) && c in r.loaded && Legal(i, StateAt(r.commits, r.loaded[c], url).previews)
    ensures Inv(Next(r, Save(c, i), url), url)
  {
    var base := r.loaded[c];
    var s, files := StateAt(r.commits, base, url), FilesAt(r.commits, base);
    var result := Prepare(s, files, i);
    var after := Next(r, Save(c, i), url);
    HeadStep(r, Save(c, i), url);
    assert OnBranch(r, base, url);
    ReadIsSource(r.commits, base, url);
    if result.Ok? {
      ParentsExist(r, c, Commit(base, i, result.value.1));
      OneMoreBuilt(r.commits, Commit(base, i, result.value.1), url);
    }
    assert InRange(after);
    forall d | d in after.loaded ensures OnBranch(after, after.loaded[d], url) {
      BasesStay(r, after, r.loaded[d], url);
    }
  }

  lemma StepKeeps(r: Repo, step: Step, url: string)
    requires Inv(r, url)
    ensures Inv(Next(r, step, url), url)
  {
    var after := Next(r, step, url);
    if step.Save? && step.publisher in r.loaded && Legal(step.inputs, StateAt(r.commits, r.loaded[step.publisher], url).previews) {
      SavedKeeps(r, step.publisher, step.inputs, url);
    } else {
      assert after.commits == r.commits && after.head == r.head;
      forall d | d in after.loaded ensures OnBranch(after, after.loaded[d], url) {
        if d in r.loaded && after.loaded[d] == r.loaded[d] { assert OnBranch(r, r.loaded[d], url); }
      }
    }
  }

  // ----------------------------------------------------------------------- runs

  /** A run of any number of publishers from a repository without the branch. */
  ghost predicate IsRun(rs: seq<Repo>, steps: seq<Step>, url: string) {
    && |rs| == |steps| + 1 && rs[0] == Repo([], None, map[], [])
    && (forall i {:trigger steps[i]} :: 0 <= i < |steps| ==> InRange(rs[i]) && rs[i + 1] == Next(rs[i], steps[i], url))
  }

  lemma {:induction false} RunKeeps(rs: seq<Repo>, steps: seq<Step>, url: string, k: nat)
    requires IsRun(rs, steps, url) && k < |rs|
    ensures Inv(rs[k], url)
  {
    if k > 0 {
      RunKeeps(rs, steps, url, k - 1);
      StepKeeps(rs[k - 1], steps[k - 1], url);
    }
  }

  /** No update is lost: every head the branch ever had is an ancestor of every later head. */
  lemma {:induction false} NoLostUpdate(rs: seq<Repo>, steps: seq<Step>, url: string, j: nat, k: nat)
    requires IsRun(rs, steps, url) && j <= k < |rs| && rs[j].head.Some?
    ensures Inv(rs[k], url) && rs[j].head.value < |rs[k].commits|
    ensures rs[k].head.Some? && IsAncestor(rs[k].commits, rs[j].head.value, rs[k].head.value)
    decreases k
  {
    RunKeeps(rs, steps, url, k);
    if j < k {
      NoLostUpdate(rs, steps, url, j, k - 1);
      var before, after := rs[k - 1], rs[k];
      HeadStep(before, steps[k - 1], url);
      AncestryIsStable(before.commits, after.commits, rs[j].head.value, before.head.value);
    }
  }

  lemma BuiltFromParent(before: seq<Commit>, after: seq<Commit>, k: nat, url: string)
    requires WellFounded(after) && before <= after && k < |after| && Built(after, k, url)
    requires after[k].parent.Some? ==> after[k].parent.value < |before|
    ensures Wrote(before, after[k].parent, after[k].inputs, after[k].files, url)
  {
    var parent := after[k].parent;
    assert parent.Some? ==> after[parent.value] == before[parent.value];
    assert FilesAt(before, parent) == FilesAt(after, parent);
  }

  /** The branch is one chain of runs: each new head was computed from the observations of one
      publisher and from exactly the tree it replaced. */
  lemma EachHeadExtendsTheLast(rs: seq<Repo>, steps: seq<Step>, url: string, k: nat)
    requires IsRun(rs, steps, url) && k < |steps| && rs[k + 1].head != rs[k].head
    ensures InRange(rs[k]) && InRange(rs[k + 1]) && steps[k].Save?
    ensures Wrote(rs[k].commits, rs[k].head, steps[k].inputs, FilesAt(rs[k + 1].commits, rs[k + 1].head), url)
  {
    RunKeeps(rs, steps, url, k);
    RunKeeps(rs, steps, url, k + 1);
    HeadStep(rs[k], steps[k], url);
    var before, after := rs[k].commits, rs[k + 1].commits;
    var commit := after[|before|];
    assert Built(after, |before|, url);
    BuiltFromParent(before, after, |before|, url);
  }

  // ---------------------------------------------------------------- deployments

  /** Step `k` deploys its commit. */
  ghost predicate DeploysAt(rs: seq<Repo>, steps: seq<Step>, k: nat)
    requires k < |steps| && k + 1 < |rs|
  {
    steps[k].Deploy? && rs[k + 1].deployed == rs[k].deployed + [steps[k].expected]
  }

  /** Only the current head of the branch is ever deployed, with every preview it lists unexpired. */
  lemma OnlyTheHeadDeploys(rs: seq<Repo>, steps: seq<Step>, url: string, k: nat)
    requires IsRun(rs, steps, url) && k < |steps| && rs[k + 1].deployed != rs[k].deployed
    ensures DeploysAt(rs, steps, k) && rs[k].head == Some(steps[k].expected) && InRange(rs[k])
    ensures Unexpired(StateAt(rs[k].commits, rs[k].head, url).previews, steps[k].now)
  {
    var r, after := rs[k], Next(rs[k], steps[k], url);
    assert after == rs[k + 1];
  }

  /** No superseded state is deployed: over every interleaving, what is deployed later descends from
      everything deployed before. */
  lemma DeploymentsNeverGoBack(rs: seq<Repo>, steps: seq<Step>, url: string, j: nat, k: nat)
    requires IsRun(rs, steps, url) && j < k < |steps|
    requires rs[j + 1].deployed != rs[j].deployed && rs[k + 1].deployed != rs[k].deployed
    ensures steps[j].Deploy? && steps[k].Deploy? && Inv(rs[k], url) && steps[k].expected < |rs[k].commits|
    ensures IsAncestor(rs[k].commits, steps[j].expected, steps[k].expected)
  {
    OnlyTheHeadDeploys(rs, steps, url, j);
    OnlyTheHeadDeploys(rs, steps, url, k);
    NoLostUpdate(rs, steps, url, j, k);
  }

  // ------------------------------------------------------------------- readability

  /** Every run that commits adds an ordinary run id and time. */
  ghost predicate OrdinarySaves(steps: seq<Step>) {
    forall i {:trigger steps[i]} :: 0 <= i < |steps| && steps[i].Save? ==> OrdinaryInputs(steps[i].inputs)
  }

  ghost predicate OrdinaryCommits(commits: seq<Commit>) {
    forall k {:trigger commits[k]} :: 0 <= k < |commits| ==> OrdinaryInputs(commits[k].inputs)
  }

  lemma OrdinaryStep(r: Repo, step: Step, url: string)
    requires Inv(r, url) && OrdinaryCommits(r.commits) && (step.Save? ==> OrdinaryInputs(step.inputs))
    ensures OrdinaryCommits(Next(r, step, url).commits)
  {
  }

  lemma {:induction false} CommitsAreOrdinary(rs: seq<Repo>, steps: seq<Step>, url: string, k: nat)
    requires IsRun(rs, steps, url) && k < |rs| && OrdinarySaves(steps)
    ensures OrdinaryCommits(rs[k].commits)
  {
    if k > 0 {
      CommitsAreOrdinary(rs, steps, url, k - 1);
      RunKeeps(rs, steps, url, k - 1);
      OrdinaryStep(rs[k - 1], steps[k - 1], url);
    }
  }

  /** A commit built by ordinary runs from the start of its chain can be read back. */
  lemma {:induction false} BuiltLoads(commits: seq<Commit>, k: nat, url: string)
    requires WellFounded(commits) && AllBuilt(commits, url) && OrdinaryCommits(commits) && k < |commits| && |url| <= 1000
    ensures Loads(commits[k].files, url) && Ordinary(StateAt(commits, Some(k), url).previews)
    decreases k
  {
    var commit := commits[k];
    var s, files := StateAt(commits, commit.parent, url), FilesAt(commits, commit.parent);
    assert Built(commits, k, url);
    if commit.parent.Some? {
      BuiltLoads(commits, commit.parent.value, url);
    }
    OrdinaryWritesLoad(s, files, url, commit.inputs);
  }

  /** Every head can be read back by the next publisher, as long as every run that commits adds an
      ordinary run id and time. */
  lemma EveryHeadLoads(rs: seq<Repo>, steps: seq<Step>, url: string, k: nat)
    requires IsRun(rs, steps, url) && k < |rs| && |url| <= 1000 && OrdinarySaves(steps)
    ensures InRange(rs[k]) && Readable(rs[k].commits, rs[k].head, url)
  {
    RunKeeps(rs, steps, url, k);
    CommitsAreOrdinary(rs, steps, url, k);
    if rs[k].head.Some? {
      BuiltLoads(rs[k].commits, rs[k].head.value, url);
    }
  }
}
