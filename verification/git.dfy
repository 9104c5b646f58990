/**
 * The local repository wrapper (src/git.rs): which local branches are offered
 * for cleaning, and the deletion loop. The repository itself is abstract: the
 * items its local-branch iteration yields, what HEAD resolves to, whether the
 * iteration can be opened at all, and the set of branches whose deletion fails.
 */
module Git {
  import opened Wrappers
  import opened Errors

  /** Branch names that are never offered for deletion. */
  const PROTECTED_BRANCHES: seq<string> := ["main", "master", "develop", "development"]

  /**
   * One item of the local-branch iteration: a branch with a readable name, or an
   * item the listing pipeline drops (an iteration error, or a name that is not
   * valid UTF-8).
   */
  datatype BranchEntry = Named(name: string) | Unreadable

  /** What HEAD resolves to: whether it is a branch, and its short name if readable. */
  datatype Reference = Reference(isBranch: bool, shorthand: Option<string>)

  /**
   * The listing pipeline: keep the readable names, minus the protected names and
   * the name of the current branch, in iteration order.
   */
  function LocalBranchNames(entries: seq<BranchEntry>, current: Option<string>): (r: seq<string>)
    ensures |r| <= |entries|
    ensures forall n :: n in r <==>
      Named(n) in entries && n !in PROTECTED_BRANCHES && current != Some(n)
  {
    if entries == [] then []
    else
      var rest := LocalBranchNames(entries[1..], current);
      match entries[0]
      case Named(n) =>
        if n !in PROTECTED_BRANCHES && current != Some(n) then [n] + rest else rest
      case Unreadable => rest
  }

  /** The listing keeps iteration order: it distributes over concatenation. */
  lemma {:induction false} LocalBranchNamesAppend(a: seq<BranchEntry>, b: seq<BranchEntry>, current: Option<string>)
    ensures LocalBranchNames(a + b, current) == LocalBranchNames(a, current) + LocalBranchNames(b, current)
  {
    if a == [] {
      assert a + b == b;
    } else {
      assert (a + b)[1..] == a[1..] + b;
      LocalBranchNamesAppend(a[1..], b, current);
    }
  }

  /** The entries left once every branch named in `names` is gone. */
  function Without(entries: seq<BranchEntry>, names: seq<string>): (r: seq<BranchEntry>)
    ensures |r| <= |entries|
    ensures forall e :: e in r <==> e in entries && !(e.Named? && e.name in names)
  {
    if entries == [] then []
    else if entries[0].Named? && entries[0].name in names then Without(entries[1..], names)
    else [entries[0]] + Without(entries[1..], names)
  }

  /** `Without` depends only on which names are listed. */
  lemma {:induction false} WithoutSameNames(entries: seq<BranchEntry>, a: seq<string>, b: seq<string>)
    requires forall n :: Named(n) in entries ==> (n in a <==> n in b)
    ensures Without(entries, a) == Without(entries, b)
  {
    if entries != [] {
      WithoutSameNames(entries[1..], a, b);
    }
  }

  /** Deleting `a` and then `b` leaves what deleting `a + b` leaves. */
  lemma {:induction false} WithoutTwice(entries: seq<BranchEntry>, a: seq<string>, b: seq<string>)
    ensures Without(Without(entries, a), b) == Without(entries, a + b)
  {
    if entries != [] {
      WithoutTwice(entries[1..], a, b);
    }
  }

  /** What a deletion loop returns, and the entries it leaves behind. */
  datatype Deletion = Deletion(outcome: Result<(), BranchCleanerError>, remaining: seq<BranchEntry>)

  /**
   * The deletion loop on the abstract repository: a name with no branch is
   * skipped; a branch in `undeletable` stops the loop with an error, and the
   * branches deleted before it stay deleted.
   */
  function DeleteRun(entries: seq<BranchEntry>, names: seq<string>, undeletable: set<string>): (d: Deletion)
    ensures |d.remaining| <= |entries|
    ensures forall e :: e in d.remaining ==> e in entries
    ensures forall e :: e in entries && !(e.Named? && e.name in names) ==> e in d.remaining
    ensures d.outcome.Err? ==> exists n :: n in names && n in undeletable && Named(n) in entries
    decreases |names|
  {
    if names == [] then Deletion(Ok(()), entries)
    else if Named(names[0]) in entries then
      if names[0] in undeletable then Deletion(Err(GitError), entries)
      else DeleteRun(Without(entries, [names[0]]), names[1..], undeletable)
    else DeleteRun(entries, names[1..], undeletable)
  }

  /** Names without a branch are skipped: deleting only such names changes nothing. */
  lemma {:induction false} DeleteRunSkipsMissing(entries: seq<BranchEntry>, names: seq<string>, undeletable: set<string>)
    requires forall n :: n in names ==> Named(n) !in entries
    ensures DeleteRun(entries, names, undeletable) == Deletion(Ok(()), entries)
  {
    if names != [] {
      DeleteRunSkipsMissing(entries, names[1..], undeletable);
    }
  }

  /**
   * The loop succeeds exactly when no listed name has a branch whose deletion
   * fails, and then every listed branch is gone and nothing else.
   */
  lemma {:induction false} DeleteRunOutcome(entries: seq<BranchEntry>, names: seq<string>, undeletable: set<string>)
    ensures DeleteRun(entries, names, undeletable).outcome.Ok? <==>
      forall n :: n in names && n in undeletable ==> Named(n) !in entries
    ensures DeleteRun(entries, names, undeletable).outcome.Ok? ==>
      DeleteRun(entries, names, undeletable).remaining == Without(entries, names)
    decreases |names|
  {
    if names == [] {
      WithoutSameNames(entries, [], names);
      assert Without(entries, []) == entries by {
        WithoutNone(entries);
      }
    } else {
      var n0, rest := names[0], names[1..];
      assert names == [n0] + rest;
      if Named(n0) in entries {
        if n0 !in undeletable {
          var after := Without(entries, [n0]);
          DeleteRunOutcome(after, rest, undeletable);
          WithoutTwice(entries, [n0], rest);
        }
      } else {
        DeleteRunOutcome(entries, rest, undeletable);
        WithoutSameNames(entries, rest, names);
      }
    }
  }

  lemma {:induction false} WithoutNone(entries: seq<BranchEntry>)
    ensures Without(entries, []) == entries
  {
    if entries != [] {
      WithoutNone(entries[1..]);
    }
  }

  /**
   * The loop stops at the first name whose branch cannot be deleted: the
   * branches named before it are gone, and no later name is tried.
   */
  lemma {:induction false} DeleteRunStopsAtFirstFailure(entries: seq<BranchEntry>, names: seq<string>, undeletable: set<string>, k: nat)
    requires k < |names| && names[k] in undeletable && Named(names[k]) in entries
    requires forall j :: 0 <= j < k ==> !(names[j] in undeletable && Named(names[j]) in entries)
    ensures DeleteRun(entries, names, undeletable) == Deletion(Err(GitError), Without(entries, names[..k]))
    decreases k
  {
    if k == 0 {
      WithoutNone(entries);
    } else {
      var n0, rest := names[0], names[1..];
      assert names[..k] == [n0] + rest[..k - 1];
      if Named(n0) in entries {
        var after := Without(entries, [n0]);
        DeleteRunStopsAtFirstFailure(after, rest, undeletable, k - 1);
        WithoutTwice(entries, [n0], rest[..k - 1]);
      } else {
        DeleteRunStopsAtFirstFailure(entries, rest, undeletable, k - 1);
        WithoutSameNames(entries, rest[..k - 1], names[..k]);
      }
    }
  }

  /** `GitRepository`: the abstract state of one local repository. */
  class GitRepository {
    /** What the local-branch iteration yields, in order. */
    var entries: seq<BranchEntry>
    /** What HEAD resolves to; None when it cannot be read (no commits yet). */
    var head: Option<Reference>
    /** Whether opening the local-branch iteration fails. */
    const iterationFails: bool
    /** The branches whose deletion fails (for example the checked-out one). */
    const undeletable: set<string>

    constructor (entries: seq<BranchEntry>, head: Option<Reference>, iterationFails: bool, undeletable: set<string>)
      ensures this.entries == entries && this.head == head
      ensures this.iterationFails == iterationFails && this.undeletable == undeletable
    {
      this.entries := entries;
      this.head := head;
      this.iterationFails := iterationFails;
      this.undeletable := undeletable;
    }

    /** The checked-out branch; None when HEAD is missing or detached. */
    function CurrentBranch(): (r: Option<string>)
      reads this
      ensures head.None? || !head.value.isBranch ==> r.None?
      ensures r.Some? ==> head.Some? && head.value.isBranch && head.value.shorthand == r
      ensures head.Some? && head.value.isBranch ==> r == head.value.shorthand
    {
      match head
      case None => None
      case Some(ref) => if ref.isBranch then ref.shorthand else None
    }

    /**
     * The branches offered for cleaning: every readable local branch except the
     * protected ones and the checked-out one. Fails only when the iteration
     * cannot be opened.
     */
    function ListLocalBranches(): (r: Result<seq<string>, BranchCleanerError>)
      reads this
      ensures r.Err? <==> iterationFails
      ensures r.Ok? ==> forall n :: n in r.value <==>
        Named(n) in entries && n !in PROTECTED_BRANCHES && CurrentBranch() != Some(n)
    {
      if iterationFails then Err(GitError)
      else Ok(LocalBranchNames(entries, CurrentBranch()))
    }

    /**
     * Deletes the branches named in `names`, one at a time: a name without a
     * local branch is skipped, and the first deletion that fails ends the loop
     * with an error.
     */
    method DeleteBranches(names: seq<string>) returns (r: Result<(), BranchCleanerError>)
      modifies this
      ensures head == old(head)
      ensures Deletion(r, entries) == DeleteRun(old(entries), names, undeletable)
    {
      var i := 0;
      while i < |names|
        invariant 0 <= i <= |names|
        invariant head == old(head)
        invariant DeleteRun(entries, names[i..], undeletable) == DeleteRun(old(entries), names, undeletable)
      {
        var name := names[i];
        assert names[i..][0] == name && names[i..][1..] == names[i + 1..];
        if Named(name) in entries {
          if name in undeletable {
            return Err(GitError);
          }
          entries := Without(entries, [name]);
        }
        i := i + 1;
      }
      return Ok(());
    }
  }
}
