/**
 * The pull-request lookup and the enrichment loop (src/github.rs). The remote
 * API is abstract: `pulls(owner, repo, head)` is the first page (at most one
 * item) of the pull requests whose head matches `head`, or an error.
 */
module GitHub {
  import opened Wrappers
  import opened Errors
  import opened Branch

  /** The lifecycle state the API reports for a pull request. */
  datatype IssueState = Open | Closed

  /** The fields of an API pull request that the lookup reads. */
  datatype PullRequest = PullRequest(
    headRef: string,
    mergedAt: Option<int>,
    state: Option<IssueState>,
    number: nat,
    title: Option<string>)

  /** The `(status, number, title)` triple a successful lookup yields. */
  datatype PrInfo = PrInfo(status: PrStatus, number: u32, title: string)

  /**
   * The status of a pull request: MERGED whenever it has a merge time, whatever
   * its state; otherwise its open/closed state; NONE when it reports neither.
   */
  function Classify(pr: PullRequest): (s: PrStatus)
    ensures s != LOADING
    ensures s == MERGED <==> pr.mergedAt.Some?
    ensures s == OPEN <==> pr.mergedAt.None? && pr.state == Some(Open)
    ensures s == CLOSED <==> pr.mergedAt.None? && pr.state == Some(Closed)
    ensures s == NONE <==> pr.mergedAt.None? && pr.state.None?
  {
    if pr.mergedAt.Some? then MERGED
    else match pr.state
      case Some(Open) => OPEN
      case Some(Closed) => CLOSED
      case None => NONE
  }

  /**
   * What the lookup keeps of a pull request: its status, its number cut to 32
   * bits (`as u32`), and its title or the empty string.
   */
  function Info(pr: PullRequest): (i: PrInfo)
    ensures i.status == Classify(pr)
    ensures i.number as int == pr.number % 0x1_0000_0000
    ensures pr.title.Some? ==> i.title == pr.title.value
    ensures pr.title.None? ==> i.title == ""
  {
    PrInfo(Classify(pr), (pr.number % 0x1_0000_0000) as u32,
           match pr.title case Some(t) => t case None => "")
  }

  /**
   * The pull request one query yields for `branchName`: the first item of a
   * successful page, provided `branchName` is its source (head) branch.
   */
  function Accepted(page: Result<seq<PullRequest>, BranchCleanerError>, branchName: string): (r: Option<PullRequest>)
    ensures r.Some? <==> page.Ok? && |page.value| > 0 && page.value[0].headRef == branchName
    ensures r.Some? ==> r.value == page.value[0]
  {
    if page.Ok? && |page.value| > 0 && page.value[0].headRef == branchName then Some(page.value[0])
    else None
  }

  /**
   * The branch record built from one lookup result: the pull request's details
   * when one was found, otherwise status NONE with no number and no title, for a
   * lookup that found nothing as well as for one that failed.
   */
  function EnrichedBranch(name: string, lookup: Result<Option<PrInfo>, BranchCleanerError>): (b: BCBranch)
    ensures b.name == name
    ensures lookup.Ok? && lookup.value.Some? ==>
      b.prStatus == lookup.value.value.status &&
      b.prNumber == Some(lookup.value.value.number) &&
      b.prTitle == Some(lookup.value.value.title)
    ensures !(lookup.Ok? && lookup.value.Some?) ==>
      b.prStatus == NONE && b.prNumber.None? && b.prTitle.None?
  {
    match lookup
    case Ok(Some(info)) => WithPr(name, info.status, info.number, info.title)
    case _ => New(name, NONE)
  }

  /** The error `send` returns when the receiver is gone; it hands the value back. */
  datatype SendError = SendError(value: BCBranch)

  /**
   * The sending half of the unbounded channel to the interface. `sent` records
   * every value handed to `Send`, delivered or not.
   */
  class UnboundedSender {
    const receiverOpen: bool
    ghost var sent: seq<BCBranch>

    constructor (receiverOpen: bool)
      ensures this.receiverOpen == receiverOpen && sent == []
    {
      this.receiverOpen := receiverOpen;
      sent := [];
    }

    method Send(b: BCBranch) returns (r: Result<(), SendError>)
      modifies this
      ensures sent == old(sent) + [b]
      ensures r.Ok? <==> receiverOpen
      ensures r.Err? ==> r.error.value == b
    {
      sent := sent + [b];
      if receiverOpen {
        r := Ok(());
      } else {
        r := Err(SendError(b));
      }
    }
  }

  /** `GitHubClient`: the repository coordinates and the abstract remote API. */
  class GitHubClient {
    const owner: string
    const repo: string
    /** One `pulls(owner, repo).list().head(head).state(All).per_page(1)` request. */
    const pulls: (string, string, string) -> Result<seq<PullRequest>, BranchCleanerError>
    /** `enrich_branches`, which src/github.rs does not define. */
    const enrichBranches: seq<string> -> seq<BCBranch>

    constructor (owner: string, repo: string,
                 pulls: (string, string, string) -> Result<seq<PullRequest>, BranchCleanerError>,
                 enrichBranches: seq<string> -> seq<BCBranch>)
      ensures this.owner == owner && this.repo == repo
      ensures this.pulls == pulls && this.enrichBranches == enrichBranches
    {
      this.owner := owner;
      this.repo := repo;
      this.pulls := pulls;
      this.enrichBranches := enrichBranches;
    }

    /** The two head filters tried, in order: same-repository, then `owner:branch`. */
    function HeadFormats(branchName: string): seq<string> {
      [branchName, owner + ":" + branchName]
    }

    /**
     * The result of the lookup for `branchName`: the pull request the plain-name
     * query accepts, else the one the `owner:name` query accepts, else none.
     * Only a pull request whose head is `branchName` is ever reported.
     */
    function PrFor(branchName: string): (r: Option<PrInfo>)
      ensures var plain := Accepted(pulls(owner, repo, HeadFormats(branchName)[0]), branchName);
              var fork := Accepted(pulls(owner, repo, HeadFormats(branchName)[1]), branchName);
              && (plain.Some? ==> r == Some(Info(plain.value)))
              && (plain.None? && fork.Some? ==> r == Some(Info(fork.value)))
              && (plain.None? && fork.None? ==> r.None?)
      ensures r.Some? ==> exists pr: PullRequest :: pr.headRef == branchName && r.value == Info(pr)
    {
      var formats := HeadFormats(branchName);
      match Accepted(pulls(owner, repo, formats[0]), branchName)
      case Some(pr) => Some(Info(pr))
      case None =>
        match Accepted(pulls(owner, repo, formats[1]), branchName)
        case Some(pr) => Some(Info(pr))
        case None => None
    }

    /**
     * `get_pr_for_branch`: tries each head filter in turn and returns the first
     * accepted pull request. A failed request only moves on to the next filter,
     * so the result is never an error.
     */
    method GetPrForBranch(branchName: string) returns (r: Result<Option<PrInfo>, BranchCleanerError>)
      ensures r.Ok?
      ensures r.value == PrFor(branchName)
    {
      var formats := HeadFormats(branchName);
      for i := 0 to |formats|
        invariant forall j :: 0 <= j < i ==> Accepted(pulls(owner, repo, formats[j]), branchName).None?
      {
        var result := pulls(owner, repo, formats[i]);
        if result.Ok? && |result.value| > 0 {
          var pr := result.value[0];
          if pr.headRef == branchName {
            return Ok(Some(Info(pr)));
          }
        }
      }
      return Ok(None);
    }

    /**
     * `enrich_branches_streaming`: one record per name, in input order, each sent
     * on `tx` as soon as it is built and also collected. Whether the receiver is
     * still there does not affect the result.
     */
    method EnrichBranchesStreaming(branchNames: seq<string>, tx: UnboundedSender) returns (branches: seq<BCBranch>)
      modifies tx
      ensures |branches| == |branchNames| && Names(branches) == branchNames
      ensures forall i :: 0 <= i < |branchNames| ==>
        branches[i] == EnrichedBranch(branchNames[i], Ok(PrFor(branchNames[i])))
      ensures tx.sent == old(tx.sent) + branches
    {
      branches := [];
      for i := 0 to |branchNames|
        invariant |branches| == i
        invariant forall j :: 0 <= j < i ==>
          branches[j] == EnrichedBranch(branchNames[j], Ok(PrFor(branchNames[j])))
        invariant tx.sent == old(tx.sent) + branches
      {
        var name := branchNames[i];
        var lookup := GetPrForBranch(name);
        var branch := EnrichedBranch(name, lookup);
        var _ := tx.Send(branch);
        branches := branches + [branch];
      }
    }
  }
}
