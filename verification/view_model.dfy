/**
 * The selection-aware view state and the view model that drives it
 * (src/view_model.rs). `View` is the value of a `ViewState` at one moment; the
 * functions over it are the transitions the view-model methods perform in place.
 */
module ViewModel {
  import opened Wrappers
  import opened Branch
  import opened Store
  import Git

  /** The fields of a `ViewState`: the list, the cursor, the names marked for deletion. */
  datatype View = View(branches: seq<BCBranch>, selectedIndex: nat, selectedBranches: seq<string>)

  /** `len.saturating_sub(1)`: the last index, or 0 for an empty list. */
  function MaxIndex(len: nat): nat {
    if len == 0 then 0 else len - 1
  }

  /**
   * What every transition keeps: the cursor is within `0..=MaxIndex`, and every
   * marked name is the name of a listed branch.
   */
  predicate Consistent(v: View) {
    && v.selectedIndex <= MaxIndex(|v.branches|)
    && forall n :: n in v.selectedBranches ==> n in Names(v.branches)
  }

  /**
   * `ViewState::new`: the list as given, the cursor on the first branch, and
   * exactly the MERGED branches marked, in list order.
   */
  function NewView(bs: seq<BCBranch>): (v: View)
    ensures v.branches == bs && v.selectedIndex == 0
    ensures forall n :: n in v.selectedBranches <==>
      exists b :: b in bs && b.prStatus == MERGED && b.name == n
    ensures Consistent(v)
  {
    MergedNamesAreNames(bs);
    View(bs, 0, MergedNames(bs))
  }

  /** `move_up`: one step towards the top, stopping at 0; nothing else changes. */
  function MovedUp(v: View): (r: View)
    ensures r.branches == v.branches && r.selectedBranches == v.selectedBranches
    ensures r.selectedIndex <= v.selectedIndex <= r.selectedIndex + 1
    ensures r.selectedIndex == v.selectedIndex <==> v.selectedIndex == 0
    ensures Consistent(v) ==> Consistent(r)
  {
    if v.selectedIndex > 0 then v.(selectedIndex := v.selectedIndex - 1) else v
  }

  /**
   * `move_down`: one step towards the bottom while below the last index;
   * nothing else changes (so an empty list never moves).
   */
  function MovedDown(v: View): (r: View)
    ensures r.branches == v.branches && r.selectedBranches == v.selectedBranches
    ensures v.selectedIndex <= r.selectedIndex <= v.selectedIndex + 1
    ensures r.selectedIndex == v.selectedIndex <==> v.selectedIndex >= MaxIndex(|v.branches|)
    ensures Consistent(v) ==> Consistent(r)
  {
    if v.selectedIndex < MaxIndex(|v.branches|) then v.(selectedIndex := v.selectedIndex + 1) else v
  }

  lemma AppendDistinct(s: seq<string>, x: string)
    requires Distinct(s) && x !in s
    ensures Distinct(s + [x])
  {
  }

  lemma RemoveAtDistinct(s: seq<string>, p: nat)
    requires p < |s| && Distinct(s)
    ensures Distinct(s[..p] + s[p + 1..])
    ensures s[p] !in s[..p] + s[p + 1..]
  {
    var r := s[..p] + s[p + 1..];
    forall i | 0 <= i < |r| ensures r[i] == s[if i < p then i else i + 1] {
    }
  }

  /**
   * The marks after toggling `name` (`position`, then `remove` or `push`): an
   * absent name is appended; a present one loses its first occurrence. No other
   * name is affected.
   */
  function Toggle(s: seq<string>, name: string): (r: seq<string>)
    ensures name !in s ==> r == s + [name]
    ensures name in s ==> |r| == |s| - 1 && multiset(r) == multiset(s) - multiset{name}
    ensures name in s ==> exists p :: 0 <= p < |s| && s[p] == name && name !in s[..p] && r == s[..p] + s[p + 1..]
    ensures forall n :: n != name ==> (n in r <==> n in s)
    ensures Distinct(s) ==> Distinct(r) && (name in s ==> name !in r)
  {
    match IndexOf(s, name)
    case Some(p) =>
      assert s == s[..p] + [s[p]] + s[p + 1..];
      assert Distinct(s) ==> Distinct(s[..p] + s[p + 1..]) && name !in s[..p] + s[p + 1..] by {
        if Distinct(s) {
          RemoveAtDistinct(s, p);
        }
      }
      s[..p] + s[p + 1..]
    case None =>
      assert Distinct(s) ==> Distinct(s + [name]) by {
        if Distinct(s) {
          AppendDistinct(s, name);
        }
      }
      s + [name]
  }

  /**
   * `toggle_selection`: flips whether the branch under the cursor is marked; a
   * no-op when the cursor is not on a branch.
   */
  function ToggledSelection(v: View): (r: View)
    ensures r.branches == v.branches && r.selectedIndex == v.selectedIndex
    ensures v.selectedIndex >= |v.branches| ==> r == v
    ensures v.selectedIndex < |v.branches| ==>
      var name := v.branches[v.selectedIndex].name;
      && (name !in v.selectedBranches ==> r.selectedBranches == v.selectedBranches + [name])
      && (name in v.selectedBranches ==>
            multiset(r.selectedBranches) == multiset(v.selectedBranches) - multiset{name})
      && (name in v.selectedBranches ==> exists p ::
            0 <= p < |v.selectedBranches| && v.selectedBranches[p] == name && name !in v.selectedBranches[..p]
            && r.selectedBranches == v.selectedBranches[..p] + v.selectedBranches[p + 1..])
      && (forall n :: n != name ==> (n in r.selectedBranches <==> n in v.selectedBranches))
    ensures Consistent(v) ==> Consistent(r)
    ensures Distinct(v.selectedBranches) ==> Distinct(r.selectedBranches)
  {
    if v.selectedIndex >= |v.branches| then v
    else
      var name := v.branches[v.selectedIndex].name;
      assert name == Names(v.branches)[v.selectedIndex];
      v.(selectedBranches := Toggle(v.selectedBranches, name))
  }

  /**
   * Toggling twice at the same cursor gives back the same marked names (the same
   * multiset); when the name was not marked, exactly the same state.
   */
  lemma ToggleTwice(v: View)
    requires Distinct(v.selectedBranches)
    ensures var r := ToggledSelection(ToggledSelection(v));
      && r.branches == v.branches && r.selectedIndex == v.selectedIndex
      && multiset(r.selectedBranches) == multiset(v.selectedBranches)
    ensures v.selectedIndex >= |v.branches| || v.branches[v.selectedIndex].name !in v.selectedBranches ==>
      ToggledSelection(ToggledSelection(v)) == v
  {
  }

  /** Whether the first branch named `name` is still LOADING. */
  predicate WasLoading(bs: seq<BCBranch>, name: string) {
    match IndexOfName(bs, name)
    case Some(p) => bs[p].prStatus == LOADING
    case None => false
  }

  /**
   * `update_branch`: the first branch with the update's name is replaced by it,
   * and the name is marked when that branch goes from LOADING to MERGED and is
   * not marked yet. An update for an unknown name changes nothing.
   */
  function Updated(v: View, b: BCBranch): (r: View)
    ensures b.name !in Names(v.branches) ==> r == v
    ensures b.name in Names(v.branches) ==>
      var p := IndexOfName(v.branches, b.name).value;
      r.branches == v.branches[p := b]
    ensures |r.branches| == |v.branches| && Names(r.branches) == Names(v.branches)
    ensures r.selectedIndex == v.selectedIndex
    ensures r.selectedBranches == v.selectedBranches || r.selectedBranches == v.selectedBranches + [b.name]
    ensures r.selectedBranches != v.selectedBranches <==>
      WasLoading(v.branches, b.name) && b.prStatus == MERGED && b.name !in v.selectedBranches
    ensures Consistent(v) ==> Consistent(r)
    ensures Distinct(v.selectedBranches) ==> Distinct(r.selectedBranches)
  {
    match IndexOfName(v.branches, b.name)
    case None => v
    case Some(p) =>
      var autoSelect := v.branches[p].prStatus == LOADING && b.prStatus == MERGED
                        && b.name !in v.selectedBranches;
      var branches := v.branches[p := b];
      assert Names(branches) == Names(v.branches);
      assert autoSelect ==> Distinct(v.selectedBranches) ==> Distinct(v.selectedBranches + [b.name]) by {
        if autoSelect && Distinct(v.selectedBranches) {
          AppendDistinct(v.selectedBranches, b.name);
        }
      }
      View(branches, v.selectedIndex,
           if autoSelect then v.selectedBranches + [b.name] else v.selectedBranches)
  }

  /** A stream of updates folded into the view, in arrival order. */
  function UpdatedAll(v: View, updates: seq<BCBranch>): View
    decreases |updates|
  {
    if updates == [] then v else UpdatedAll(Updated(v, updates[0]), updates[1..])
  }

  /**
   * However many updates arrive, the list keeps its length and its names, the
   * cursor stays put, marks are only ever added (never removed, never
   * duplicated), and the invariants hold throughout.
   */
  lemma {:induction false} UpdatedAllPreserves(v: View, updates: seq<BCBranch>)
    ensures var r := UpdatedAll(v, updates);
      && |r.branches| == |v.branches| && Names(r.branches) == Names(v.branches)
      && r.selectedIndex == v.selectedIndex
      && v.selectedBranches <= r.selectedBranches
      && (Consistent(v) ==> Consistent(r))
      && (Distinct(v.selectedBranches) ==> Distinct(r.selectedBranches))
    decreases |updates|
  {
    if updates != [] {
      UpdatedAllPreserves(Updated(v, updates[0]), updates[1..]);
    }
  }

  /**
   * Delete-then-reload with the in-memory store: none of the deleted names is
   * listed afterwards, and when every MERGED branch was marked the new marks are
   * empty, so deleting again changes nothing.
   */
  lemma DeleteAllMergedThenAgain(content: seq<BCBranch>, selected: seq<string>)
    requires forall n :: n in MergedNames(content) ==> n in selected
    ensures var after := NewView(WithoutNames(content, selected));
      && (forall b :: b in after.branches ==> b.name !in selected)
      && after.selectedBranches == []
      && NewView(WithoutNames(after.branches, after.selectedBranches)) == after
  {
    var after := NewView(WithoutNames(content, selected));
    forall b | b in after.branches ensures b.prStatus != MERGED {
      assert b in content && b.name !in selected;
      assert b.name !in MergedNames(content);
    }
    WithoutAbsentNames(after.branches, []);
  }

  /** The view state the interface renders; the view-model methods update it in place. */
  class ViewState {
    var branches: seq<BCBranch>
    var selectedIndex: nat
    var selectedBranches: seq<string>

    /** `ViewState::new`. */
    constructor (branches: seq<BCBranch>)
      ensures Value() == NewView(branches)
    {
      this.branches := branches;
      selectedIndex := 0;
      selectedBranches := MergedNames(branches);
    }

    function Value(): View
      reads this
    {
      View(branches, selectedIndex, selectedBranches)
    }
  }

  /** The two `BranchStore` implementations a view model can be built over. */
  datatype StoreRef = InMemoryStore(mem: InMemoryBranchStore) | GitHubStore(gh: GitHubBranchStore)
  {
    ghost function Repr(): set<object> {
      match this
      case InMemoryStore(m) => {m}
      case GitHubStore(g) => {g, g.git}
    }

    /** `list_branches`, dispatched to the implementation. */
    function ListBranches(): seq<BCBranch>
      reads Repr()
    {
      match this
      case InMemoryStore(m) => m.ListBranches()
      case GitHubStore(g) => g.ListBranches()
    }
  }

  /** `BranchViewModel`: the transitions on a view state, and the store behind them. */
  class BranchViewModel {
    const store: StoreRef

    constructor (store: StoreRef)
      ensures this.store == store
    {
      this.store := store;
    }

    /** A fresh view state built from the store's current list. */
    method LoadInitialState() returns (state: ViewState)
      ensures fresh(state)
      ensures state.Value() == NewView(store.ListBranches())
    {
      state := new ViewState(store.ListBranches());
    }

    method MoveUp(state: ViewState)
      modifies state
      ensures state.Value() == MovedUp(old(state.Value()))
    {
      if state.selectedIndex > 0 {
        state.selectedIndex := state.selectedIndex - 1;
      }
    }

    method MoveDown(state: ViewState)
      modifies state
      ensures state.Value() == MovedDown(old(state.Value()))
    {
      var maxIndex := MaxIndex(|state.branches|);
      if state.selectedIndex < maxIndex {
        state.selectedIndex := state.selectedIndex + 1;
      }
    }

    method ToggleSelection(state: ViewState)
      modifies state
      ensures state.Value() == ToggledSelection(old(state.Value()))
    {
      if state.selectedIndex >= |state.branches| {
        return;
      }
      var currentName := state.branches[state.selectedIndex].name;
      state.selectedBranches := Toggle(state.selectedBranches, currentName);
    }

    /**
     * Deletes the marked branches through the store, then rebuilds the state from
     * the store's new list: marks recomputed as that list's MERGED names, cursor
     * back to 0.
     */
    method DeleteSelectedBranches(state: ViewState)
      modifies state, store.Repr()
      ensures state.Value() == NewView(store.ListBranches())
      ensures store.InMemoryStore? ==>
        store.mem.branches == WithoutNames(old(store.mem.branches), old(state.selectedBranches))
      ensures store.GitHubStore? ==>
        && store.gh.git.head == old(store.gh.git.head)
        && store.gh.cache == old(store.gh.CacheAfterDelete(state.selectedBranches))
        && store.gh.git.entries ==
             Git.DeleteRun(old(store.gh.git.entries), old(state.selectedBranches), store.gh.git.undeletable).remaining
    {
      match store {
        case InMemoryStore(m) => m.DeleteBranches(state.selectedBranches);
        case GitHubStore(g) => g.DeleteBranches(state.selectedBranches);
      }
      var newBranches := store.ListBranches();
      var newSelected := MergedNames(newBranches);
      state.branches := newBranches;
      state.selectedBranches := newSelected;
      state.selectedIndex := 0;
    }

    method UpdateBranch(state: ViewState, updatedBranch: BCBranch)
      modifies state
      ensures state.Value() == Updated(old(state.Value()), updatedBranch)
    {
      match IndexOfName(state.branches, updatedBranch.name) {
        case None =>
        case Some(pos) =>
          var wasLoading := state.branches[pos].prStatus == LOADING;
          var isNowMerged := updatedBranch.prStatus == MERGED;
          if wasLoading && isNowMerged && updatedBranch.name !in state.selectedBranches {
            state.selectedBranches := state.selectedBranches + [updatedBranch.name];
          }
          state.branches := state.branches[pos := updatedBranch];
      }
    }
  }
}
