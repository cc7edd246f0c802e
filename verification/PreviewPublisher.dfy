/** The publisher's aggregate as it is edited in place. */
module PreviewPublisher {
  import opened Text
  import opened Sums
  import opened PreviewPaths
  import opened PreviewSite

  /** Removing one directory more. */
  lemma WithoutOneMore(files: Files, gone: set<string>, n: string)
    ensures Without(Without(files, gone), {n}) == Without(files, gone + {n})
  {
    forall p | p in files ensures Below(p, gone + {n}) <==> Below(p, gone) || Below(p, {n}) {
      if Below(p, gone + {n}) {
        var m :| m in gone + {n} && StartsWith(p, PrPrefix(m));
        assert m in gone || m in {n};
      }
    }
  }

  lemma SizesRemove(files: Files, p: string)
    requires p in files
    ensures Total(Sizes(files)) == Size(files[p]) + Total(Sizes(files - {p}))
  {
    TotalRemove(Sizes(files), p);
    assert Sizes(files) - {p} == Sizes(files - {p});
  }

  method SizeOf(c: Content) returns (size: nat)
    ensures size == Size(c)
  {
    match c {
      case Asset(data) => size := |data|;
      case Forward(number, sha) => size := 541 + |number| + 2 * |sha|;
      case Listing(previews) =>
        var sum := SumValues(ListingWeights(previews));
        size := 576 + sum;
      case Empty => size := 0;
      case Document(s) =>
        var sum := SumValues(DocumentWeights(s.previews));
        size := 76 + |s.schema| + |s.repository| + |s.pagesUrl| + (if s.previews == map[] then 0 else 2 + sum);
    }
  }

  method TotalSize(files: Files) returns (total: nat)
    ensures total == Total(Sizes(files))
  {
    total := 0;
    var left := files;
    while left != map[]
      invariant total + Total(Sizes(left)) == Total(Sizes(files))
      decreases |left|
    {
      var p :| p in left;
      SizesRemove(left, p);
      var size := SizeOf(left[p]);
      total := total + size;
      left := left - {p};
    }
  }

  ghost predicate Scannable(tree: Files) {
    && (forall p :: p in tree ==> IsKnown(p) && Size(tree[p]) <= MAX_FILE)
    && Total(Sizes(tree)) <= MAX_SITE
  }

  /** The pass over a tree's entries. */
  method ScanTree(tree: Files) returns (ok: bool)
    ensures ok <==> Scannable(tree)
  {
    var total: nat := 0;
    var left := tree;
    while left != map[]
      invariant forall p :: p in left ==> p in tree && left[p] == tree[p]
      invariant forall p :: p in tree && p !in left ==> IsKnown(p) && Size(tree[p]) <= MAX_FILE
      invariant total + Total(Sizes(left)) == Total(Sizes(tree)) && total <= MAX_SITE
      decreases |left|
    {
      var p :| p in left;
      SizesRemove(left, p);
      var size := SizeOf(left[p]);
      if !IsKnown(p) || size > MAX_FILE || total + size > MAX_SITE {
        return false;
      }
      total := total + size;
      left := left - {p};
    }
    return true;
  }

  /** Reads a stored tree back: the state document, if the tree passes every check. */
  method LoadState(tree: Files, url: string) returns (r: Result<State>)
    ensures r.Ok? <==> Loads(tree, url)
    ensures r.Ok? ==> r.value == tree[STATE].state
  {
    var ok := ScanTree(tree);
    if |tree| > MAX_SITE_FILES || !ok || STATE !in tree || !tree[STATE].Document? {
      return Unsafe;
    }
    var s := tree[STATE].state;
    if !ValidState(s, url) || !Tidy(s.previews, tree) {
      return Unsafe;
    }
    return Ok(s);
  }

  lemma CopyStep(before: Files, assets: Files, left: set<string>, prefix: string, a: string)
    requires a in left && left <= assets.Keys
    ensures (before + Placed(assets - left, prefix))[prefix + a := assets[a]] == before + Placed(assets - (left - {a}), prefix)
  {
    PlacedOneMore(assets, left, prefix, a);
  }

  lemma NothingRemoved(before: Files)
    ensures Without(before, {}) == before
  {
  }

  /** What is dropped and trusted after one more listed preview has been looked at. */
  lemma LookedAtOneMore(listed: Previews, left: set<string>, prs: Pulls, now: int, n: string)
    requires (forall m :: m in listed ==> m in prs) && n in left && left <= listed.Keys
    requires Trusted(listed - left, prs) && IsNumber(n) && ValidatePr(prs[n], Value(n), None) == Good
    ensures Trusted(listed - (left - {n}), prs)
    ensures var gone := Dropped(listed - left, prs, now);
            && Dropped(listed - (left - {n}), prs, now) == (if Gone(prs[n], listed[n], now) then gone + {n} else gone)
            && listed - gone - {n} == listed - (gone + {n})
  {
  }

  lemma NothingPlaced(before: Files, assets: Files, prefix: string)
    ensures before + Placed(assets - assets.Keys, prefix) == before
  {
    assert assets - assets.Keys == map[];
  }

  class Aggregate {
    var state: State
    var files: Files

    constructor (state: State, files: Files)
      ensures this.state == state && this.files == files
    {
      this.state, this.files := state, files;
    }

    /** Deletes every file below a pull request's directory. */
    method RemoveDirectory(n: string)
      modifies this`files
      ensures files == Without(old(files), {n})
    {
      ghost var before := files;
      var left := files.Keys;
      while left != {}
        invariant left <= before.Keys
        invariant files == map p | p in before && (p in left || !StartsWith(p, PrPrefix(n))) :: before[p]
        decreases |left|
      {
        var p :| p in left;
        if StartsWith(p, PrPrefix(n)) {
          files := files - {p};
        }
        left := left - {p};
      }
      forall p | p in before ensures Below(p, {n}) <==> StartsWith(p, PrPrefix(n)) {
        BelowOne(p, n);
      }
    }

    /** Removes the closed and the expired previews; false when some pull request is not trusted. */
    method Reconcile(prs: Pulls, now: int) returns (ok: bool)
      requires forall n :: n in state.previews ==> n in prs
      modifies this
      ensures ok <==> old(Trusted(state.previews, prs))
      ensures ok ==> state == old(state).(previews := old(state.previews - Dropped(state.previews, prs, now)))
      ensures ok ==> files == old(Without(files, Dropped(state.previews, prs, now)))
    {
      var listed, left := state.previews, state.previews.Keys;
      ghost var gone: set<string> := {};
      NothingRemoved(files);
      while left != {}
        invariant left <= listed.Keys && gone == Dropped(listed - left, prs, now) && Trusted(listed - left, prs)
        invariant state == old(state).(previews := listed - gone)
        invariant files == Without(old(files), gone)
        decreases |left|
      {
        var n :| n in left;
        if !IsNumber(n) || ValidatePr(prs[n], Value(n), None) != Good {
          return false;
        }
        LookedAtOneMore(listed, left, prs, now, n);
        if Gone(prs[n], listed[n], now) {
          WithoutOneMore(old(files), gone, n);
          RemoveDirectory(n);
          state := state.(previews := state.previews - {n});
          gone := gone + {n};
        }
        left := left - {n};
      }
      assert listed - {} == listed;
      return true;
    }

    /** The stored files of one build, by the rest of their name. */
    method ReadBuild(prefix: string) returns (existing: Files)
      ensures existing == Existing(files, prefix)
    {
      existing := map[];
      var left := files.Keys;
      while left != {}
        invariant left <= files.Keys
        invariant forall a :: a in existing <==> prefix + a in files && prefix + a !in left
        invariant forall a :: a in existing ==> existing[a] == files[prefix + a]
        decreases |left|
      {
        var p :| p in left;
        if StartsWith(p, prefix) {
          SplitAt(p, prefix);
          existing := existing[p[|prefix|..] := files[p]];
        }
        left := left - {p};
      }
      forall a ensures a in existing <==> a in Existing(files, prefix) {
        var p := prefix + a;
        assert p[..|prefix|] == prefix && p[|prefix|..] == a;
      }
    }

    /** Copies a build's files to their stored names. */
    method CopyBuild(assets: Files, prefix: string) returns (ok: bool)
      modifies this`files
      ensures ok <==> AllStatic(assets)
      ensures ok ==> files == old(files) + Placed(assets, prefix)
    {
      ghost var before := files;
      var left := assets.Keys;
      NothingPlaced(before, assets, prefix);
      while left != {}
        invariant left <= assets.Keys
        invariant forall a :: a in assets && a !in left ==> IsStatic(a)
        invariant files == before + Placed(assets - left, prefix)
        decreases |left|
      {
        var a :| a in left;
        if !IsStatic(a) {
          return false;
        }
        CopyStep(before, assets, left, prefix, a);
        files := files[prefix + a := assets[a]];
        left := left - {a};
      }
      assert assets - {} == assets;
      return true;
    }

    /** Whether a commit may be published again. */
    method MayRepeat(n: string, sha: string, assets: Files) returns (ok: bool)
      ensures ok <==> Repeatable(state.previews, files, n, sha, assets)
    {
      ok := true;
      if n in state.previews && state.previews[n].sha == sha {
        var existing := ReadBuild(ShaPrefix(n, sha));
        ok := existing == assets;
      }
    }

    /** Publishes a build under its pull request; false when it may not be published. */
    method AddPreview(c: Candidate, now: int) returns (ok: bool)
      modifies this
      ensures ok <==> old(Acceptable(state.previews, files, c))
      ensures ok ==> state == old(state).(previews := AddedPreviews(old(state.previews), c, now))
      ensures ok ==> files == AddedFiles(old(files), c)
    {
      var n := Decimal(c.number);
      if !IsNumber(n) || !IsSha(c.sha) {
        return false;
      }
      ok := MayRepeat(n, c.sha, c.assets);
      if !ok {
        return;
      }
      RemoveDirectory(n);
      ok := CopyBuild(c.assets, ShaPrefix(n, c.sha));
      if ok {
        files := files[ForwardPath(n) := Forward(n, c.sha)];
        state := state.(previews := state.previews[n := Entry(c.sha, now, c.runId)]);
      }
    }

    /** Writes the generated files; false when the whole exceeds the site's limits. */
    method FinishSite() returns (ok: bool)
      modifies this`files
      ensures files == FinishedFiles(state, old(files))
      ensures ok <==> Fits(files)
    {
      files := files[LISTING := Listing(state.previews)];
      files := files[NO_JEKYLL := Empty];
      files := files[STATE := Document(state)];
      var total := TotalSize(files);
      ok := |files| <= MAX_SITE_FILES && total <= MAX_SITE;
    }

    /** One whole run up to the commit: exactly what `Prepare` says, or nothing to commit. */
    method Run(i: Inputs) returns (ok: bool)
      requires Legal(i, state.previews)
      modifies this
      ensures ok <==> old(Prepare(state, files, i)).Ok?
      ensures ok ==> (state, files) == old(Prepare(state, files, i)).value
    {
      ok := Reconcile(i.prs, i.now);
      if !ok {
        return;
      }
      if i.candidate.Some? {
        var standing := ValidatePr(i.pull, i.candidate.value.number, Some(i.candidate.value.sha));
        if standing == Refused {
          return false;
        }
        if standing == Good {
          ok := AddPreview(i.candidate.value, i.now);
          if !ok {
            return;
          }
        }
      }
      ok := FinishSite();
    }
  }

  lemma PlacedOneMore(assets: Files, left: set<string>, prefix: string, a: string)
    requires a in left && left <= assets.Keys
    ensures Placed(assets - left, prefix)[prefix + a := assets[a]] == Placed(assets - (left - {a}), prefix)
  {
    var before, after := Placed(assets - left, prefix), Placed(assets - (left - {a}), prefix);
    assert (prefix + a)[|prefix|..] == a && (prefix + a)[..|prefix|] == prefix;
    forall p ensures p in before[prefix + a := assets[a]] <==> p in after {
      PlacedAt(assets - left, prefix, p);
      PlacedAt(assets - (left - {a}), prefix, p);
      if StartsWith(p, prefix) { SplitAt(p, prefix); }
    }
    forall p | p in after ensures before[prefix + a := assets[a]][p] == after[p] {
      PlacedAt(assets - left, prefix, p);
      PlacedAt(assets - (left - {a}), prefix, p);
    }
  }
}
