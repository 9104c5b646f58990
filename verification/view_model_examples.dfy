/**
 * The scenarios of the unit tests of src/view_model.rs, stated on the
 * transition functions: each lemma fixes one starting list and the exact state
 * the operations lead to.
 */
module ViewModelExamples {
  import opened Wrappers
  import opened Branch
  import opened Store
  import opened ViewModel

  /** The three branches the tests start from. */
  function TestBranches(): seq<BCBranch> {
    [ New("main", NONE),
      WithPr("feature-1", OPEN, 1, "Feature 1"),
      WithPr("feature-2", MERGED, 2, "Feature 2") ]
  }

  /** A new state marks only the MERGED branch. */
  lemma NewStateMarksMerged()
    ensures NewView(TestBranches()) == View(TestBranches(), 0, ["feature-2"])
  {
    var bs := TestBranches();
    assert bs[1..][1..] == [bs[2]];
    assert MergedNames([bs[2]]) == ["feature-2"];
  }

  /** CLOSED branches are not marked, only MERGED ones. */
  lemma ClosedNotMarked()
    ensures NewView([ New("main", NONE),
                      WithPr("feature-closed", CLOSED, 3, "Closed PR"),
                      WithPr("feature-merged", MERGED, 4, "Merged PR") ]).selectedBranches
            == ["feature-merged"]
  {
    var bs := [ New("main", NONE),
                WithPr("feature-closed", CLOSED, 3, "Closed PR"),
                WithPr("feature-merged", MERGED, 4, "Merged PR") ];
    assert bs[1..][1..] == [bs[2]];
    assert MergedNames([bs[2]]) == ["feature-merged"];
  }

  /** Down moves to 1; down, down, up also ends at 1; the marks never change. */
  lemma MovesOnTestBranches()
    ensures MovedDown(NewView(TestBranches())) == View(TestBranches(), 1, ["feature-2"])
    ensures MovedUp(MovedDown(MovedDown(NewView(TestBranches()))))
            == View(TestBranches(), 1, ["feature-2"])
  {
    NewStateMarksMerged();
  }

  /** Toggling "main" appends it; toggling the marked "feature-2" removes it. */
  lemma TogglesOnTestBranches()
    ensures ToggledSelection(NewView(TestBranches())).selectedBranches == ["feature-2", "main"]
    ensures ToggledSelection(MovedDown(MovedDown(NewView(TestBranches())))).selectedBranches == []
  {
    NewStateMarksMerged();
    var s: seq<string> := ["feature-2"];
    assert IndexOf(s, "feature-2") == Some(0);
    assert s[..0] + s[1..] == [];
  }

  /** Deleting the marks removes "feature-2" and leaves nothing marked. */
  lemma DeleteOnTestBranches()
    ensures NewView(WithoutNames(TestBranches(), ["feature-2"]))
            == View([New("main", NONE), WithPr("feature-1", OPEN, 1, "Feature 1")], 0, [])
  {
    var bs := TestBranches();
    assert bs[1..][1..] == [bs[2]];
    assert WithoutNames([bs[2]], ["feature-2"]) == [];
    var kept := [bs[0], bs[1]];
    assert kept[1..][1..] == [];
    assert MergedNames(kept) == [];
  }

  /** A LOADING branch becoming OPEN is replaced and not marked; becoming MERGED, it is marked. */
  lemma UpdatesOnLoadingBranches()
    ensures var v := NewView([New("main", LOADING), New("feature-1", LOADING)]);
      var r := Updated(v, WithPr("feature-1", OPEN, 42, "My Feature"));
      r.branches == [New("main", LOADING), WithPr("feature-1", OPEN, 42, "My Feature")]
      && r.selectedBranches == []
    ensures var v := NewView([New("main", LOADING), New("feature-merged", LOADING)]);
      Updated(v, WithPr("feature-merged", MERGED, 10, "Merged PR")).selectedBranches == ["feature-merged"]
  {
    var a := [New("main", LOADING), New("feature-1", LOADING)];
    assert IndexOfName(a, "feature-1") == Some(1) by {
      assert a[1..][0].name == "feature-1";
    }
    var b := [New("main", LOADING), New("feature-merged", LOADING)];
    assert IndexOfName(b, "feature-merged") == Some(1) by {
      assert b[1..][0].name == "feature-merged";
    }
  }

  /** An update for a name the list does not hold changes nothing. */
  lemma UpdateUnknownIgnored()
    ensures var v := NewView([New("main", LOADING)]);
      Updated(v, New("unknown-branch", MERGED)) == v
  {
    var bs := [New("main", LOADING)];
    assert Names(bs) == ["main"];
  }
}
