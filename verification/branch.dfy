/**
 * The branch record shared by every component (`BCBranch` and `PrStatus` of the
 * crate root) and the list queries the other modules build on.
 */
module Branch {
  import opened Wrappers

  /** Status of the pull request whose source branch is this branch. */
  datatype PrStatus = NONE | OPEN | MERGED | CLOSED | LOADING

  /** Rust's `u32`. */
  newtype u32 = x: int | 0 <= x < 0x1_0000_0000

  /** One local branch and what is known about its pull request. */
  datatype BCBranch = BCBranch(
    name: string,
    prStatus: PrStatus,
    prNumber: Option<u32>,
    prTitle: Option<string>)

  /** `BCBranch::new`: a branch without pull-request details. */
  function New(name: string, status: PrStatus): BCBranch {
    BCBranch(name, status, None, None)
  }

  /** `BCBranch::with_pr`: a branch with the number and title of its pull request. */
  function WithPr(name: string, status: PrStatus, number: u32, title: string): BCBranch {
    BCBranch(name, status, Some(number), Some(title))
  }

  /** The names of `bs`, position for position. */
  function Names(bs: seq<BCBranch>): seq<string> {
    seq(|bs|, i requires 0 <= i < |bs| => bs[i].name)
  }

  lemma NameInNames(bs: seq<BCBranch>, b: BCBranch)
    requires b in bs
    ensures b.name in Names(bs)
  {
    var i :| 0 <= i < |bs| && bs[i] == b;
    assert Names(bs)[i] == b.name;
  }

  predicate Distinct(s: seq<string>) {
    forall i, j :: 0 <= i < j < |s| ==> s[i] != s[j]
  }

  /**
   * The names of the MERGED branches of `bs`, in list order: the default
   * selection (`filter(MERGED).map(name).collect()`).
   */
  function MergedNames(bs: seq<BCBranch>): (r: seq<string>)
    ensures |r| <= |bs|
    ensures forall n :: n in r <==> exists b :: b in bs && b.prStatus == MERGED && b.name == n
    ensures (forall b :: b in bs ==> b.prStatus != MERGED) ==> r == []
  {
    if bs == [] then []
    else if bs[0].prStatus == MERGED then [bs[0].name] + MergedNames(bs[1..])
    else MergedNames(bs[1..])
  }

  /** Every selected name is the name of some branch in the list. */
  lemma MergedNamesAreNames(bs: seq<BCBranch>)
    ensures forall n :: n in MergedNames(bs) ==> n in Names(bs)
  {
    forall n | n in MergedNames(bs) ensures n in Names(bs) {
      var b :| b in bs && b.prStatus == MERGED && b.name == n;
      NameInNames(bs, b);
    }
  }

  /** The selection is an order-preserving filter: it distributes over concatenation. */
  lemma {:induction false} MergedNamesAppend(a: seq<BCBranch>, b: seq<BCBranch>)
    ensures MergedNames(a + b) == MergedNames(a) + MergedNames(b)
  {
    if a == [] {
      assert a + b == b;
    } else {
      assert (a + b)[1..] == a[1..] + b;
      MergedNamesAppend(a[1..], b);
    }
  }

  /** Branches with distinct names give a selection without repetitions. */
  lemma {:induction false} MergedNamesDistinct(bs: seq<BCBranch>)
    requires Distinct(Names(bs))
    ensures Distinct(MergedNames(bs))
  {
    if bs != [] {
      assert Names(bs[1..]) == Names(bs)[1..];
      MergedNamesDistinct(bs[1..]);
      if bs[0].prStatus == MERGED {
        forall b | b in bs[1..] ensures b.name != bs[0].name {
          var i :| 0 <= i < |bs[1..]| && bs[1..][i] == b;
          assert Names(bs)[0] == bs[0].name && Names(bs)[i + 1] == b.name;
        }
        ConsDistinct(bs[0].name, MergedNames(bs[1..]));
      }
    }
  }

  lemma ConsDistinct(x: string, s: seq<string>)
    requires x !in s && Distinct(s)
    ensures Distinct([x] + s)
  {
    forall i, j | 0 <= i < j < |[x] + s| ensures ([x] + s)[i] != ([x] + s)[j] {
      if i > 0 {
        assert ([x] + s)[i] == s[i - 1];
      }
      assert ([x] + s)[j] == s[j - 1];
    }
  }

  /**
   * `iter().position(|n| n == x)`: the first index holding `x`, or None when
   * `x` does not occur.
   */
  function IndexOf(s: seq<string>, x: string): (r: Option<nat>)
    ensures r.None? <==> x !in s
    ensures r.Some? ==> r.value < |s| && s[r.value] == x && x !in s[..r.value]
  {
    if s == [] then None
    else if s[0] == x then Some(0)
    else match IndexOf(s[1..], x)
      case None => None
      case Some(k) =>
        assert s[..k + 1] == [s[0]] + s[1..][..k];
        Some(k + 1)
  }

  /**
   * `iter().position(|b| b.name == name)`: the first index of a branch named
   * `name`, or None when no branch has that name.
   */
  function IndexOfName(bs: seq<BCBranch>, name: string): (r: Option<nat>)
    ensures r.None? <==> name !in Names(bs)
    ensures r.Some? ==> r.value < |bs| && bs[r.value].name == name
    ensures r.Some? ==> forall j :: 0 <= j < r.value ==> bs[j].name != name
  {
    if bs == [] then None
    else if bs[0].name == name then
      assert Names(bs)[0] == name;
      Some(0)
    else
      assert Names(bs) == [bs[0].name] + Names(bs[1..]);
      match IndexOfName(bs[1..], name)
      case None => None
      case Some(k) => Some(k + 1)
  }
}
