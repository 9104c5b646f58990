# branch-cleaner-gh in Dafny

A verified model of the core of branch-cleaner-gh, a terminal tool that lists a
repository's local branches, looks up the GitHub pull request whose source
branch each one is, marks the merged ones for deletion and deletes what the user
keeps marked.

The model covers four pieces:

- **The view state and its view model** (`view_model.dfy`, module `ViewModel`).
  - `View` is the record `{branches, selectedIndex, selectedBranches}`.
  - Each operation is a pure transition on `View`: `NewView`, `MovedUp`,
    `MovedDown`, `ToggledSelection`, `Updated`.
  - The class `ViewState` holds the same three fields, which the methods of
    `BranchViewModel` update in place. Each method is proved equal to its
    transition (`state.Value() == MovedUp(old(state.Value()))`, ...).
  - `DeleteSelectedBranches` deletes through the store, then rebuilds the state
    from the store's new list.
- **The branch stores** (`store.dfy`, module `Store`).
  - `InMemoryBranchStore` holds a `seq<BCBranch>` and deletes by `retain`,
    which is modelled as `WithoutNames`.
  - `GitHubBranchStore` holds an `Option<seq<BCBranch>>` cache in front of a git
    repository and a GitHub client.
  - The `BranchStore` trait the two share becomes the datatype
    `ViewModel.StoreRef`, and the view model dispatches on it.
- **The pull-request lookup and the enrichment loop** (`github.dfy`, module `GitHub`).
  - The remote query is the abstract function `pulls(owner, repo, head)`. It
    returns the first page of results or an error.
  - `Classify` decides the status and `Accepted` checks the head ref.
  - `GetPrForBranch` tries the plain name, then `owner:name`.
  - `EnrichBranchesStreaming` builds one record per name and sends each one on a
    channel. The channel is modelled by the ghost sequence `sent`.
- **The local repository** (`git.dfy`, module `Git`).
  - The repository is abstract: the items its branch iteration yields, what HEAD
    resolves to, whether the iteration can be opened, and the set of branches
    whose deletion fails.
  - `LocalBranchNames` is the listing filter, which drops protected branches and
    the current branch.
  - `DeleteRun` is the reference semantics of the deletion loop, and
    `GitRepository.DeleteBranches` is proved to follow it.

`branch.dfy` holds the crate-root record `BCBranch`, the type `PrStatus` and the
list queries shared by the other modules.

The crate root itself (`src/lib.rs`) is not part of this model. `BCBranch` and
`PrStatus` are reconstructed from their uses:
- `BCBranch` has the fields `name`, `pr_status`, `pr_number: Option<u32>` and
  `pr_title: Option<String>`.
- `new` leaves the pull-request fields empty, and `with_pr` fills them.

`view_model_examples.dfy` restates the unit-test scenarios of
`src/view_model.rs` as lemmas about the transition functions.

Behaviour worth knowing:
- **Deleting with nothing marked.** `delete_selected_branches`
  (src/view_model.rs:86-104) always calls the store, reloads and resets the
  cursor, even when nothing is marked.
- **A failed git deletion.** When the loop stops part-way,
  `GitHubBranchStore::delete_branches` (src/store.rs:158-161) returns before
  touching the cache. The cache keeps the entries for branches git did delete
  before the failure.
- **Enrichment order.** `enrich_branches_streaming` (src/github.rs:100-113)
  looks up one branch at a time, in input order.
- **The marks.** `selected_branches` (src/view_model.rs:10) is an ordered list,
  not a set. Toggling removes the first occurrence and keeps the others in
  order.

## Model

| member | source | states |
|---|---|---|
| Branch.MergedNames | src/view_model.rs:17-21 | the default marks: exactly the names of MERGED branches, at most one per branch; no MERGED branch means no marks |
| Branch.MergedNamesAreNames | src/view_model.rs:17-21 | every default mark names a listed branch |
| Branch.MergedNamesAppend | src/view_model.rs:17-21 | the marks keep list order: the filter distributes over concatenation |
| Branch.MergedNamesDistinct | src/view_model.rs:17-21 | branches with distinct names give marks without repetition |
| Branch.IndexOf | src/view_model.rs:72-76 | `position`: None iff the name is absent, otherwise the first index holding it |
| Branch.IndexOfName | src/view_model.rs:110-114 | `position` by name: None iff no branch has the name, otherwise the first branch that has it |
| ViewModel.NewView | src/view_model.rs:16-27 | branches unchanged, cursor 0, marks exactly the MERGED names; the result is consistent |
| ViewModel.MovedUp | src/view_model.rs:50-54 | the cursor drops by one exactly when it is above 0; list and marks untouched; consistency kept |
| ViewModel.MovedDown | src/view_model.rs:57-62 | the cursor rises by one exactly when it is below `len - 1` (saturating); list and marks untouched; consistency kept |
| ViewModel.Toggle | src/view_model.rs:72-82 | an absent name is appended; a present one loses its first occurrence, the other marks keeping their order (so the multiset loses one copy); no other name changes; distinctness kept |
| ViewModel.ToggledSelection | src/view_model.rs:65-83 | a no-op when the cursor is past the list; otherwise flips the current branch's mark (appended, or its first occurrence removed with the rest in order) and nothing else |
| ViewModel.ToggleTwice | src/view_model.rs:72-82 | toggling twice restores the same multiset of marks, and the exact state when the name was unmarked |
| ViewModel.Updated | src/view_model.rs:109-127 | unknown name: no change; otherwise the first match is replaced, and the name is marked iff it goes from LOADING to MERGED while unmarked; never removes or duplicates a mark |
| ViewModel.UpdatedAllPreserves | src/view_model.rs:109-127 | any stream of updates keeps length, names and cursor, only adds marks, and keeps consistency and distinctness |
| ViewModel.DeleteAllMergedThenAgain | src/view_model.rs:86-104 | after deleting through the in-memory store, no deleted name is listed; when all MERGED names were marked, nothing is marked and deleting again changes nothing |
| ViewModel.ViewState.constructor | src/view_model.rs:16-27 | the new state is `NewView` of the list |
| ViewModel.BranchViewModel.constructor | src/view_model.rs:40-42 | the view model keeps the store it is given |
| ViewModel.BranchViewModel.LoadInitialState | src/view_model.rs:45-47 | a fresh state equal to `NewView` of the store's list |
| ViewModel.BranchViewModel.MoveUp | src/view_model.rs:50-54 | the state becomes `MovedUp` of the old state |
| ViewModel.BranchViewModel.MoveDown | src/view_model.rs:57-62 | the state becomes `MovedDown` of the old state |
| ViewModel.BranchViewModel.ToggleSelection | src/view_model.rs:65-83 | the state becomes `ToggledSelection` of the old state |
| ViewModel.BranchViewModel.DeleteSelectedBranches | src/view_model.rs:86-104 | the state is rebuilt from the store's post-delete list (marks = its MERGED names, cursor 0); the in-memory store loses the marked names; the git store follows the deletion loop and its cache rule, with HEAD unchanged |
| ViewModel.BranchViewModel.UpdateBranch | src/view_model.rs:109-127 | the state becomes `Updated` of the old state and the update |
| ViewModelExamples.NewStateMarksMerged | src/view_model.rs:143-155 | the three test branches give cursor 0 and marks `["feature-2"]` |
| ViewModelExamples.ClosedNotMarked | src/view_model.rs:366-380 | a CLOSED branch is not marked, the MERGED one is |
| ViewModelExamples.MovesOnTestBranches | src/view_model.rs:178-219 | down gives cursor 1; down, down, up gives cursor 1; marks unchanged |
| ViewModelExamples.TogglesOnTestBranches | src/view_model.rs:221-263 | toggling "main" gives `["feature-2", "main"]`; toggling "feature-2" gives `[]` |
| ViewModelExamples.DeleteOnTestBranches | src/view_model.rs:265-289 | deleting the marks leaves main and feature-1, no marks, cursor 0 |
| ViewModelExamples.UpdatesOnLoadingBranches | src/view_model.rs:291-347 | an OPEN update replaces the record without a mark; a MERGED update marks the name |
| ViewModelExamples.UpdateUnknownIgnored | src/view_model.rs:349-364 | an update for an unknown name changes nothing |
| Store.WithoutNames | src/store.rs:85-87 | `retain`: exactly the branches whose name is not listed, never more than before |
| Store.WithoutNamesAppend | src/store.rs:85-87 | `retain` keeps relative order: it distributes over concatenation |
| Store.WithoutAbsentNames | src/store.rs:85-87 | deleting names no branch has leaves the list unchanged |
| Store.WithoutNamesIdempotent | src/store.rs:85-87 | deleting the same names twice equals deleting them once |
| Store.WithoutNamesLength | src/store.rs:85-87 | the list shrinks by exactly the number of branches with a listed name |
| Store.DefaultStoreDeletesMain | src/store.rs:39-78 | in the default store, deleting "main" removes exactly one branch and no "main" remains |
| Store.InMemoryBranchStore.constructor | src/store.rs:34-36 | the store holds the given list |
| Store.InMemoryBranchStore.ListBranches | src/store.rs:81-83 | returns exactly the stored list |
| Store.InMemoryBranchStore.DeleteBranches | src/store.rs:85-87 | the list becomes `WithoutNames` of the old list |
| Store.GitHubBranchStore.constructor | src/store.rs:120-124 | the store keeps its repository and client, and the cache starts unset |
| Store.GitHubBranchStore.Load | src/store.rs:129-140 | fails iff the listing fails, leaving the cache as it was; otherwise the cache is replaced by the enrichment of the listing |
| Store.GitHubBranchStore.ListBranches | src/store.rs:146-154 | the cached list, or the empty list when the cache is unset |
| Store.GitHubBranchStore.CacheAfterDelete | src/store.rs:158-166 | the cache rule after a deletion: unset stays unset; a failed git loop leaves the cache as it was; otherwise exactly the cached branches with unlisted names remain |
| Store.GitHubBranchStore.DeleteBranches | src/store.rs:156-167 | git follows the deletion loop; the cache is untouched when git fails, otherwise pruned by `WithoutNames`, and stays unset if unset |
| Git.LocalBranchNames | src/git.rs:53-72 | a name is listed iff it is a readable branch, not protected and not the current branch |
| Git.LocalBranchNamesAppend | src/git.rs:56-70 | the listing keeps iteration order |
| Git.Without | src/git.rs:75-82 | the entries left once the named branches are gone |
| Git.WithoutSameNames | src/git.rs:75-82 | which branches are left depends only on which names are listed |
| Git.WithoutTwice | src/git.rs:75-82 | deleting `a` then `b` leaves what deleting `a + b` leaves |
| Git.DeleteRun | src/git.rs:75-82 | the deletion loop as a definition: only entries that were there remain, every entry not listed remains, and a failure means some listed branch was present and undeletable |
| Git.DeleteRunSkipsMissing | src/git.rs:76-77 | names without a local branch are skipped: deleting only those changes nothing and succeeds |
| Git.DeleteRunOutcome | src/git.rs:75-82 | the loop succeeds iff no listed branch is undeletable, and then exactly the listed branches are gone |
| Git.DeleteRunStopsAtFirstFailure | src/git.rs:76-81 | at the first undeletable branch the loop fails; the branches named before it are gone and later names are not tried |
| Git.GitRepository.constructor | src/git.rs:32-36 | the repository state is as given |
| Git.GitRepository.CurrentBranch | src/git.rs:39-50 | None when HEAD is missing or not a branch; otherwise HEAD's short name |
| Git.GitRepository.ListLocalBranches | src/git.rs:53-72 | fails iff the iteration cannot be opened; never lists a protected name or the current branch |
| Git.GitRepository.DeleteBranches | src/git.rs:75-82 | result and remaining branches are those of `DeleteRun`; HEAD unchanged |
| GitHub.Classify | src/github.rs:67-79 | MERGED iff merged; otherwise OPEN or CLOSED from the state; NONE when neither; never LOADING |
| GitHub.Info | src/github.rs:81-83 | status from `Classify`, number truncated to 32 bits, title or the empty string |
| GitHub.Accepted | src/github.rs:63-66 | a page yields its first item iff the query succeeded, the page is non-empty and that item's head is the branch |
| GitHub.EnrichedBranch | src/github.rs:101-107 | a found pull request gives its status, number and title; none found or an error gives NONE with no number and no title |
| GitHub.UnboundedSender.constructor | src/github.rs:96 | the channel starts with nothing sent |
| GitHub.UnboundedSender.Send | src/github.rs:110 | records the value; succeeds iff the receiver is still there, else hands the value back |
| GitHub.GitHubClient.constructor | src/github.rs:30-38 | the client keeps its owner, repository and query functions |
| GitHub.GitHubClient.PrFor | src/github.rs:42-90 | the plain-name match if accepted, else the `owner:name` match if accepted, else none; only a pull request whose head is the branch is reported |
| GitHub.GitHubClient.GetPrForBranch | src/github.rs:42-90 | never an error; the result is `PrFor` |
| GitHub.GitHubClient.EnrichBranchesStreaming | src/github.rs:93-116 | one record per name, in input order, each `EnrichedBranch` of the lookup; the values sent are exactly the returned list |

## Left out

- Terminal rendering (`src/tui.rs`) and the program entry point (`src/main.rs`) are not part of this model.
- Error formatting and the `#[from]` conversions of `src/error.rs` are left out. Only the error variants are kept, in `Errors.BranchCleanerError`.
- The octocrab HTTP request is left out. It is the abstract function `GitHubClient.pulls`, and the model keeps only the fields it reads from a pull request: head ref, merge time, state, number and title.
- Token handling in `from_env` and `offline` is left out, and so is environment access.
- Opening and discovering a git2 repository is left out. So are `get_origin_url`, `parse_github_remote` and `GitHubBranchStore::new`. The first two are wrappers over libraries whose code is not shown; the store's constructor takes an already opened repository and client.
- The git2 branch iteration is given as a sequence of entries. An iteration error and a name that is not valid UTF-8 are both `Unreadable`, because the listing drops both alike.
- Which deletions fail is a fixed set of names (`GitRepository.undeletable`). The reasons git2 refuses a deletion are not modelled.
- `enrich_branches` does not appear in `src/github.rs`. It is the abstract total function `GitHubClient.enrichBranches`.
- `Arc<Mutex<…>>` locking, async/await and the tokio channel are left out. The cache is a plain field and the channel is a ghost record of the values sent; delivery and interleaving with the interface are not modelled.
- `eprintln!` diagnostics are left out. So are the `Clone`, `Send`, `Sync` and `Debug` implementations.
- The `BranchStore` trait is the two-case datatype `ViewModel.StoreRef`. Other implementations of the trait are not covered.
- `Git.GitRepository.CurrentBranch`: `current_branch` returns a `Result` but never an error, so the model returns the `Option` directly.
