/**
 * The branch stores (src/store.rs): the in-memory store used by tests and the
 * demo, and the store that lists local branches, enriches them with pull-request
 * data and keeps the result in a cache. The `BranchStore` trait they share
 * (`list_branches`, `delete_branches`) is expressed by `ViewModel.StoreRef`.
 */
module Store {
  import opened Wrappers
  import opened Errors
  import opened Branch
  import Git
  import GitHub

  /**
   * `retain(|b| !names.contains(&b.name))`: the branches whose name is not in
   * `names`, in their original relative order.
   */
  function WithoutNames(bs: seq<BCBranch>, names: seq<string>): (r: seq<BCBranch>)
    ensures |r| <= |bs|
    ensures forall b :: b in r <==> b in bs && b.name !in names
  {
    if bs == [] then []
    else if bs[0].name in names then WithoutNames(bs[1..], names)
    else [bs[0]] + WithoutNames(bs[1..], names)
  }

  /** Retaining keeps relative order: it distributes over concatenation. */
  lemma {:induction false} WithoutNamesAppend(a: seq<BCBranch>, b: seq<BCBranch>, names: seq<string>)
    ensures WithoutNames(a + b, names) == WithoutNames(a, names) + WithoutNames(b, names)
  {
    if a == [] {
      assert a + b == b;
    } else {
      assert (a + b)[1..] == a[1..] + b;
      WithoutNamesAppend(a[1..], b, names);
    }
  }

  /** Deleting names that no branch has leaves the list as it was. */
  lemma {:induction false} WithoutAbsentNames(bs: seq<BCBranch>, names: seq<string>)
    requires forall b :: b in bs ==> b.name !in names
    ensures WithoutNames(bs, names) == bs
  {
    if bs != [] {
      WithoutAbsentNames(bs[1..], names);
    }
  }

  /** Deleting the same names twice has the effect of deleting them once. */
  lemma WithoutNamesIdempotent(bs: seq<BCBranch>, names: seq<string>)
    ensures WithoutNames(WithoutNames(bs, names), names) == WithoutNames(bs, names)
  {
    WithoutAbsentNames(WithoutNames(bs, names), names);
  }

  /** How many branches of `bs` have a name in `names`. */
  function CountNamed(bs: seq<BCBranch>, names: seq<string>): nat {
    if bs == [] then 0
    else (if bs[0].name in names then 1 else 0) + CountNamed(bs[1..], names)
  }

  /** Retaining shortens the list by exactly the number of branches it drops. */
  lemma {:induction false} WithoutNamesLength(bs: seq<BCBranch>, names: seq<string>)
    ensures CountNamed(bs, names) <= |bs|
    ensures |WithoutNames(bs, names)| == |bs| - CountNamed(bs, names)
  {
    if bs != [] {
      WithoutNamesLength(bs[1..], names);
    }
  }

  /** `InMemoryBranchStore`: the branch list itself, for tests and the demo. */
  class InMemoryBranchStore {
    var branches: seq<BCBranch>

    constructor (branches: seq<BCBranch>)
      ensures this.branches == branches
    {
      this.branches := branches;
    }

    /** Returns exactly the stored list. */
    function ListBranches(): (r: seq<BCBranch>)
      reads this
      ensures r == branches
    {
      branches
    }

    /** Removes every branch whose name is listed, keeping the others in order. */
    method DeleteBranches(names: seq<string>)
      modifies this
      ensures branches == WithoutNames(old(branches), names)
    {
      branches := WithoutNames(branches, names);
    }
  }

  /** The contents of `InMemoryBranchStore::default()`. */
  function DefaultBranches(): seq<BCBranch> {
    [ New("main", NONE),
      WithPr("feature/add-tui", OPEN, 42, "Add TUI interface with Ratatui"),
      WithPr("old-feature-branch", MERGED, 23, "Old feature implementation"),
      New("experimental/refactor", NONE),
      WithPr("bugfix/handle-errors", MERGED, 15, "Fix error handling in repository"),
      WithPr("feature/github-integration", OPEN, 50, "Integrate GitHub API for PR fetching"),
      WithPr("cleanup/remove-old-code", MERGED, 31, "Remove deprecated functions and cleanup") ]
  }

  /** Deleting "main" from the default store removes exactly that one branch. */
  lemma DefaultStoreDeletesMain()
    ensures |WithoutNames(DefaultBranches(), ["main"])| == |DefaultBranches()| - 1
    ensures forall b :: b in WithoutNames(DefaultBranches(), ["main"]) ==> b.name != "main"
  {
    var bs := DefaultBranches();
    assert bs[0].name == "main";
    WithoutAbsentNames(bs[1..], ["main"]);
    assert WithoutNames(bs, ["main"]) == bs[1..];
  }

  /** `GitHubBranchStore`: local branches enriched with pull-request data, cached. */
  class GitHubBranchStore {
    const git: Git.GitRepository
    const github: GitHub.GitHubClient
    /** The cache; None until the first successful `Load`. */
    var cache: Option<seq<BCBranch>>

    /** A store over an opened repository and a client; the cache starts unset. */
    constructor (git: Git.GitRepository, github: GitHub.GitHubClient)
      ensures this.git == git && this.github == github && cache.None?
    {
      this.git := git;
      this.github := github;
      cache := None;
    }

    /**
     * Lists the local branches and replaces the whole cache with their enriched
     * records; when the listing fails, the cache is left as it was.
     */
    method Load() returns (r: Result<(), BranchCleanerError>)
      modifies this
      ensures r.Err? <==> git.ListLocalBranches().Err?
      ensures r.Err? ==> cache == old(cache)
      ensures r.Ok? ==> cache == Some(github.enrichBranches(git.ListLocalBranches().value))
    {
      var listing := git.ListLocalBranches();
      if listing.Err? {
        return Err(listing.error);
      }
      var branches := github.enrichBranches(listing.value);
      cache := Some(branches);
      return Ok(());
    }

    /** The cached list, or the empty list while the cache is unset. */
    function ListBranches(): (r: seq<BCBranch>)
      reads this
      ensures cache.Some? ==> r == cache.value
      ensures cache.None? ==> r == []
    {
      match cache
      case Some(bs) => bs
      case None => []
    }

    /**
     * The cache after deleting `names`: unchanged when the git deletion fails,
     * otherwise pruned as in the in-memory store (and still unset if it was).
     */
    ghost function CacheAfterDelete(names: seq<string>): (c: Option<seq<BCBranch>>)
      reads this, git
      ensures c.None? <==> cache.None?
      ensures Git.DeleteRun(git.entries, names, git.undeletable).outcome.Err? ==> c == cache
      ensures c.Some? ==> |c.value| <= |cache.value| && forall b :: b in c.value ==> b in cache.value
      ensures Git.DeleteRun(git.entries, names, git.undeletable).outcome.Ok? && c.Some? ==>
        forall b :: b in cache.value ==> (b in c.value <==> b.name !in names)
    {
      if Git.DeleteRun(git.entries, names, git.undeletable).outcome.Err? then cache
      else match cache
        case Some(bs) => Some(WithoutNames(bs, names))
        case None => None
    }

    /** Deletes the branches in git, then prunes the cache only if that succeeded. */
    method DeleteBranches(names: seq<string>)
      modifies this, git
      ensures git.head == old(git.head)
      ensures git.entries == Git.DeleteRun(old(git.entries), names, git.undeletable).remaining
      ensures cache == old(CacheAfterDelete(names))
    {
      var r := git.DeleteBranches(names);
      if r.Err? {
        return;
      }
      match cache
      case Some(bs) => cache := Some(WithoutNames(bs, names));
      case None =>
    }
  }
}
