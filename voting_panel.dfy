/** The company voting panel.

    The panel keeps one vote guard: `isVotingRef`, `votingProjectId` and
    `votingSupport`. It is a single slot for the whole panel, not one per project or
    per voter: while any vote is outstanding, a vote on every project is refused.
    `Panel` holds these fields and the methods that update them; the functions
    `VoteStep`, `Released` and `Run` state the same transitions on values, and the
    lemmas about them are what the panel promises.

    The other members are the pure helpers of the panel: the normalisation of fetched
    projects, the zero defaults of the repository metrics, the score colour bands
    and the choice of action area. */
module VotingPanel {
  import opened Common

  // ---------------------------------------------------------------------------
  // Fetched projects

  /** A numeric field as the read endpoint may return it. */
  datatype NumField = Absent | Null | Number(n: int) | Text(s: string)

  /** The requested amount: text, an integer (number or big integer), or missing. */
  datatype AmountField = AmountMissing | AmountText(s: string) | AmountInteger(i: int)

  /** A `getProject` result before normalisation; `None` is a missing field. */
  datatype RawProject = RawProject(
    id: NumField,
    name: Option<string>,
    description: Option<string>,
    githubUrl: Option<string>,
    requestedAmount: AmountField,
    votesFor: NumField,
    votesAgainst: NumField,
    isApproved: Option<bool>,
    isFunded: Option<bool>,
    projectAddress: Option<string>)

  datatype ProjectData = ProjectData(
    id: JsNumber,
    name: string,
    description: string,
    githubUrl: string,
    requestedAmount: string,
    votesFor: JsNumber,
    votesAgainst: JsNumber,
    isApproved: bool,
    isFunded: bool,
    projectAddress: string)

  /** `typeof id === 'string' ? parseInt(id) : Number(id)`. */
  function IdOf(f: NumField): (r: JsNumber)
    ensures f.Number? ==> r == Num(f.n)
    ensures f.Absent? ==> r == NaN
    ensures f.Null? ==> r == Num(0)
    ensures f.Text? && IsIntegerText(f.s) ==> r.Num? && Some(r.n) == ParseInteger(f.s)
  {
    match f
    case Absent => NaN
    case Null => Num(0)
    case Number(n) => Num(n)
    case Text(s) => ParseIntPrefix(s)
  }

  /** `typeof v === 'string' ? parseInt(v) : Number(v || 0)`: a missing count is 0. */
  function CountOf(f: NumField): (r: JsNumber)
    ensures f.Absent? || f.Null? ==> r == Num(0)
    ensures f.Number? ==> r == Num(f.n)
    ensures f.Text? && IsIntegerText(f.s) ==> r.Num? && Some(r.n) == ParseInteger(f.s)
  {
    match f
    case Absent => Num(0)
    case Null => Num(0)
    case Number(n) => Num(n)
    case Text(s) => ParseIntPrefix(s)
  }

  /** Text is kept as it is (even empty); an integer is written in decimal; a missing
      amount is "0". */
  function AmountOf(f: AmountField): (r: string)
    ensures f.AmountText? ==> r == f.s
    ensures f.AmountInteger? ==> ParseInteger(r) == Some(f.i)
    ensures f.AmountMissing? ==> r == "0"
  {
    match f
    case AmountMissing => "0"
    case AmountText(s) => s
    case AmountInteger(i) =>
      IntDecimalRoundTrip(i);
      IntToDecimal(i)
  }

  function Normalize(p: RawProject): (d: ProjectData)
    ensures d.id == IdOf(p.id) && d.requestedAmount == AmountOf(p.requestedAmount)
    ensures d.name == OrElse(p.name, "Unnamed Project")
    ensures d.description == OrElse(p.description, "No description")
    ensures d.githubUrl == OrElse(p.githubUrl, "") && d.projectAddress == OrElse(p.projectAddress, "")
    ensures d.votesFor == CountOf(p.votesFor) && d.votesAgainst == CountOf(p.votesAgainst)
    ensures d.isApproved == (p.isApproved == Some(true)) && d.isFunded == (p.isFunded == Some(true))
  {
    ProjectData(IdOf(p.id), OrElse(p.name, "Unnamed Project"), OrElse(p.description, "No description"),
                OrElse(p.githubUrl, ""), AmountOf(p.requestedAmount),
                CountOf(p.votesFor), CountOf(p.votesAgainst),
                p.isApproved.GetOr(false), p.isFunded.GetOr(false), OrElse(p.projectAddress, ""))
  }

  /** The answer to one `getProject` read: the request threw (network or body), the
      response was not ok, or a JSON body arrived. */
  datatype ReadResponse = RequestThrew | NotOk | Answered(success: bool, result: Option<RawProject>)

  /** The project a read yields, if any: only a successful body with a result counts. */
  function Accepted(r: ReadResponse): (p: Option<ProjectData>)
    ensures p.Some? <==> r.Answered? && r.success && r.result.Some?
    ensures p.Some? ==> p.value == Normalize(r.result.value)
  {
    if r.Answered? && r.success && r.result.Some? then Some(Normalize(r.result.value)) else None
  }

  /** The projects read for `ids`, in the order of `ids`, dropping the failed reads.
      `read` gives the answer the read endpoint returns for each id. */
  function Collect(ids: seq<int>, read: int -> ReadResponse): (r: seq<ProjectData>)
    ensures |r| <= |ids|
    ensures |r| == |ids| <==> forall i :: 0 <= i < |ids| ==> Accepted(read(ids[i])).Some?
    ensures forall p :: p in r ==> exists i :: 0 <= i < |ids| && Accepted(read(ids[i])) == Some(p)
  {
    if ids == [] then []
    else
      var rest := Collect(ids[1..], read);
      assert forall i :: 1 <= i < |ids| ==> ids[i] == ids[1..][i - 1];
      match Accepted(read(ids[0]))
      case Some(p) => [p] + rest
      case None => rest
  }

  /** Reading two lists of ids one after the other gives the projects of the first, then
      those of the second: the fetch keeps assignment order. */
  lemma {:induction false} CollectAppend(a: seq<int>, b: seq<int>, read: int -> ReadResponse)
    ensures Collect(a + b, read) == Collect(a, read) + Collect(b, read)
    decreases |a|
  {
    if a != [] {
      assert (a + b)[0] == a[0];
      assert (a + b)[1..] == a[1..] + b;
      CollectAppend(a[1..], b, read);
      match Accepted(read(a[0]))
      case Some(p) =>
        assert Collect(a + b, read) == [p] + (Collect(a[1..], read) + Collect(b, read));
        assert Collect(a, read) == [p] + Collect(a[1..], read);
      case None =>
        assert Collect(a + b, read) == Collect(a[1..], read) + Collect(b, read);
        assert Collect(a, read) == Collect(a[1..], read);
    } else {
      assert a + b == b;
    }
  }

  /** One id contributes its project exactly when its read succeeded. */
  lemma CollectOne(id: int, read: int -> ReadResponse)
    ensures Collect([id], read) == match Accepted(read(id)) case Some(p) => [p] case None => []
  {
  }

  /** `fetchProjects`: nothing assigned (no list, or an empty one) gives no projects. */
  function AssignedProjects(assignedIds: Option<seq<int>>, read: int -> ReadResponse): (r: seq<ProjectData>)
    ensures assignedIds.None? || assignedIds.value == [] ==> r == []
    ensures assignedIds.Some? ==> r == Collect(assignedIds.value, read)
  {
    if assignedIds.None? || assignedIds.value == [] then [] else Collect(assignedIds.value, read)
  }

  // ---------------------------------------------------------------------------
  // Repository metrics used for the analysis request

  datatype RawMetrics = RawMetrics(commits: Option<int>, pullRequests: Option<int>, issues: Option<int>,
                                   stars: Option<int>, forks: Option<int>, contributors: Option<int>)

  datatype Metrics = Metrics(commits: int, pullRequests: int, issues: int,
                             stars: int, forks: int, contributors: int)

  const ZeroMetrics := Metrics(0, 0, 0, 0, 0, 0)

  /** The answer of the metrics fetch: it threw, the response was not ok, or a body arrived. */
  datatype MetricsResponse = MetricsThrew | MetricsNotOk | MetricsAnswered(success: bool, data: Option<RawMetrics>)

  /** The metrics `analyzeProject` sends on; `None` when the fetch threw and the
      analysis is abandoned. Any other failure falls back to zeros, and each missing
      field of a successful answer is 0. */
  function MetricsFor(r: MetricsResponse): (m: Option<Metrics>)
    ensures m.None? <==> r.MetricsThrew?
    ensures r.MetricsNotOk? ==> m == Some(ZeroMetrics)
    ensures r.MetricsAnswered? && !(r.success && r.data.Some?) ==> m == Some(ZeroMetrics)
    ensures r.MetricsAnswered? && r.success && r.data.Some? ==>
      var d := r.data.value;
      m == Some(Metrics(d.commits.GetOr(0), d.pullRequests.GetOr(0), d.issues.GetOr(0),
                        d.stars.GetOr(0), d.forks.GetOr(0), d.contributors.GetOr(0)))
  {
    match r
    case MetricsThrew => None
    case MetricsNotOk => Some(ZeroMetrics)
    case MetricsAnswered(success, data) =>
      if success && data.Some? then
        var d := data.value;
        Some(Metrics(d.commits.GetOr(0), d.pullRequests.GetOr(0), d.issues.GetOr(0),
                     d.stars.GetOr(0), d.forks.GetOr(0), d.contributors.GetOr(0)))
      else Some(ZeroMetrics)
  }

  // ---------------------------------------------------------------------------
  // Score colours

  /** The three colour bands of an impact score. */
  datatype ScoreBand = High | Medium | Low

  function Band(score: real): (b: ScoreBand)
    ensures b == High <==> score >= 80.0
    ensures b == Medium <==> 60.0 <= score < 80.0
    ensures b == Low <==> score < 60.0
  {
    if score >= 80.0 then High else if score >= 60.0 then Medium else Low
  }

  function BandRank(b: ScoreBand): nat
  {
    match b
    case Low => 0
    case Medium => 1
    case High => 2
  }

  function ScoreColor(score: real): (c: string)
    ensures c == "text-green-400" <==> Band(score) == High
    ensures c == "text-yellow-400" <==> Band(score) == Medium
    ensures c == "text-orange-400" <==> Band(score) == Low
  {
    if score >= 80.0 then "text-green-400"
    else if score >= 60.0 then "text-yellow-400"
    else "text-orange-400"
  }

  function ScoreBgColor(score: real): (c: string)
    ensures c == "bg-green-500/20 border-green-500/30" <==> Band(score) == High
    ensures c == "bg-yellow-500/20 border-yellow-500/30" <==> Band(score) == Medium
    ensures c == "bg-orange-500/20 border-orange-500/30" <==> Band(score) == Low
  {
    if score >= 80.0 then "bg-green-500/20 border-green-500/30"
    else if score >= 60.0 then "bg-yellow-500/20 border-yellow-500/30"
    else "bg-orange-500/20 border-orange-500/30"
  }

  /** A higher score never falls in a lower band. */
  lemma BandMonotone(a: real, b: real)
    requires a <= b
    ensures BandRank(Band(a)) <= BandRank(Band(b))
  {
  }

  // ---------------------------------------------------------------------------
  // The action area of one project card

  datatype ActionArea = FundedNotice | AwaitingDistribution | VoteButtons | AnalyzeFirst

  /** Funded beats approved, approved beats the vote buttons, and the vote buttons
      need an analysis. */
  function ActionFor(isFunded: bool, isApproved: bool, hasAnalysis: bool): (a: ActionArea)
    ensures a == FundedNotice <==> isFunded
    ensures a == AwaitingDistribution <==> !isFunded && isApproved
    ensures a == VoteButtons <==> !isFunded && !isApproved && hasAnalysis
    ensures a == AnalyzeFirst <==> !isFunded && !isApproved && !hasAnalysis
  {
    if isFunded then FundedNotice
    else if isApproved then AwaitingDistribution
    else if hasAnalysis then VoteButtons
    else AnalyzeFirst
  }

  /** The "Analyze with AI" button shows for unfunded projects without an analysis. */
  function AnalyzeButtonShown(hasAnalysis: bool, isFunded: bool): (shown: bool)
    ensures shown <==> !hasAnalysis && !isFunded
  {
    !hasAnalysis && !isFunded
  }

  /** Both vote buttons of every card are disabled while a write is pending or
      confirming, or while the guard holds any project. */
  function VoteButtonsDisabled(isPending: bool, isConfirming: bool, votingProjectId: Option<int>): (d: bool)
    ensures votingProjectId.Some? ==> d
    ensures !d <==> !isPending && !isConfirming && votingProjectId.None?
  {
    isPending || isConfirming || votingProjectId.Some?
  }

  datatype ButtonLabel = ConfirmingInWallet | ProcessingVote | Ready

  /** The label of the button for `buttonSupport` on card `projectId`: only the button
      that was clicked, on the card being voted on, shows progress. */
  function VoteButtonLabel(projectId: int, buttonSupport: bool, votingProjectId: Option<int>,
                           votingSupport: Option<bool>, isPending: bool, isConfirming: bool): (l: ButtonLabel)
    ensures l != Ready ==> votingProjectId == Some(projectId) && votingSupport == Some(buttonSupport)
    ensures l == ConfirmingInWallet <==> votingProjectId == Some(projectId) && votingSupport == Some(buttonSupport) && isPending
    ensures l == ProcessingVote <==>
      votingProjectId == Some(projectId) && votingSupport == Some(buttonSupport) && !isPending && isConfirming
  {
    var clicked := votingProjectId == Some(projectId) && votingSupport == Some(buttonSupport);
    if clicked && isPending then ConfirmingInWallet
    else if clicked && isConfirming then ProcessingVote
    else Ready
  }

  // ---------------------------------------------------------------------------
  // The vote guard

  /** The guard fields `isVotingRef.current`, `votingProjectId` and `votingSupport`. */
  datatype Guard = Guard(isVoting: bool, projectId: Option<int>, support: Option<bool>)

  const Idle := Guard(false, None, None)

  /** The guard is held exactly when a project is recorded, and the support goes with it. */
  predicate Consistent(g: Guard)
  {
    (g.isVoting <==> g.projectId.Some?) && (g.projectId.Some? <==> g.support.Some?)
  }

  predicate Held(g: Guard)
  {
    g.isVoting || g.projectId.Some?
  }

  /** The contract write `voteOnProject(projectId, support)`. */
  datatype VoteCall = VoteOnProject(projectId: int, support: bool)

  /** What one call of the vote handler did. */
  datatype Attempt = BlockedByRef | BlockedByState(busyWith: int) | Submitted(call: VoteCall) | WriteThrew

  datatype Step = Step(guard: Guard, attempt: Attempt)

  /** `handleVote(projectId, support)`; `writeThrows` says whether the `try` block
      throws synchronously: `BigInt(projectId)` on a NaN id, or `writeContract` itself. */
  function VoteStep(g: Guard, projectId: int, support: bool, writeThrows: bool): (s: Step)
    // a held guard refuses every vote, on whichever project, and changes nothing
    ensures g.isVoting ==> s == Step(g, BlockedByRef)
    ensures !g.isVoting && g.projectId.Some? ==> s == Step(g, BlockedByState(g.projectId.value))
    // a free guard accepts: one write, with the clicked project and support
    ensures !Held(g) && !writeThrows ==>
      s == Step(Guard(true, Some(projectId), Some(support)), Submitted(VoteOnProject(projectId, support)))
    // a write that throws releases the guard at once
    ensures !Held(g) && writeThrows ==> s == Step(Idle, WriteThrew)
    ensures Consistent(g) ==> Consistent(s.guard)
    ensures s.attempt.Submitted? <==> !Held(g) && !writeThrows
  {
    if g.isVoting then Step(g, BlockedByRef)
    else if g.projectId.Some? then Step(g, BlockedByState(g.projectId.value))
    else if writeThrows then Step(Idle, WriteThrew)
    else Step(Guard(true, Some(projectId), Some(support)), Submitted(VoteOnProject(projectId, support)))
  }

  /** The confirmation effect (`isSuccess`) and the error effect (`isError && error`)
      both clear the guard. */
  function Released(g: Guard): (r: Guard)
    ensures !Held(r) && Consistent(r)
  {
    Idle
  }

  /** The events that reach the guard: a click on a vote button, the receipt of the
      submitted transaction, and a transaction error. */
  datatype PanelEvent = Click(projectId: int, support: bool, writeThrows: bool) | Confirmed | TxFailed

  function Next(g: Guard, e: PanelEvent): Guard
  {
    match e
    case Click(p, s, t) => VoteStep(g, p, s, t).guard
    case Confirmed => Released(g)
    case TxFailed => Released(g)
  }

  function Run(g: Guard, events: seq<PanelEvent>): Guard
    decreases |events|
  {
    if events == [] then g else Run(Next(g, events[0]), events[1..])
  }

  /** How many `voteOnProject` writes a run of events issues. */
  function Submissions(g: Guard, events: seq<PanelEvent>): nat
    decreases |events|
  {
    if events == [] then 0
    else
      var e := events[0];
      (if e.Click? && VoteStep(g, e.projectId, e.support, e.writeThrows).attempt.Submitted? then 1 else 0)
      + Submissions(Next(g, e), events[1..])
  }

  /** How many confirmations or errors of a run find the guard held and free it. */
  function Releases(g: Guard, events: seq<PanelEvent>): nat
    decreases |events|
  {
    if events == [] then 0
    else
      var e := events[0];
      (if !e.Click? && Held(g) then 1 else 0) + Releases(Next(g, e), events[1..])
  }

  function HeldCount(g: Guard): nat
  {
    if Held(g) then 1 else 0
  }

  /** Every transition keeps the guard fields consistent, and every write is matched by a
      later confirmation or error except the one still held at the end: writes and
      releases differ by exactly the change in the guard. */
  lemma {:induction false} RunBalanced(g: Guard, events: seq<PanelEvent>)
    requires Consistent(g)
    ensures Consistent(Run(g, events))
    ensures Submissions(g, events) + HeldCount(g) == Releases(g, events) + HeldCount(Run(g, events))
    decreases |events|
  {
    if events != [] {
      RunBalanced(Next(g, events[0]), events[1..]);
    }
  }

  /** From a free guard, no run ever has more than one write outstanding. */
  lemma AtMostOneOutstanding(events: seq<PanelEvent>)
    ensures Submissions(Idle, events) <= Releases(Idle, events) + 1
    ensures Held(Run(Idle, events)) <==> Submissions(Idle, events) == Releases(Idle, events) + 1
  {
    RunBalanced(Idle, events);
  }

  /** Once a vote is accepted, a click on any project, with either support, is refused
      until the guard is released. */
  lemma GuardIsGlobal(g: Guard, p: int, s: bool, q: int, t: bool, throws: bool)
    requires !Held(g)
    requires VoteStep(g, p, s, false).attempt.Submitted?
    ensures var h := VoteStep(g, p, s, false).guard;
            VoteStep(h, q, t, throws) == Step(h, BlockedByRef)
  {
  }

  /** After a write throws, the very next click is accepted. */
  lemma RetryAfterThrow(g: Guard, p: int, s: bool, q: int, t: bool)
    requires !Held(g)
    ensures var h := VoteStep(g, p, s, true).guard;
            VoteStep(h, q, t, false).attempt == Submitted(VoteOnProject(q, t))
  {
  }

  // ---------------------------------------------------------------------------
  // The panel's state

  class Panel {
    var projects: seq<ProjectData>
    var isVotingRef: bool
    var votingProjectId: Option<int>
    var votingSupport: Option<bool>
    /** The `voteOnProject` writes issued so far, in order. */
    var writes: seq<VoteCall>

    function GuardState(): Guard
      reads this
    {
      Guard(isVotingRef, votingProjectId, votingSupport)
    }

    ghost predicate Valid()
      reads this
    {
      Consistent(GuardState())
    }

    constructor ()
      ensures Valid() && GuardState() == Idle
      ensures projects == [] && writes == []
    {
      projects := [];
      isVotingRef := false;
      votingProjectId := None;
      votingSupport := None;
      writes := [];
    }

    /** `handleVote`. `writeThrows` stands for every exception raised inside the `try`,
        including `BigInt(projectId)` on an id that is NaN (an id the read did not
        return); the guard is then freed as for any other throw. */
    method HandleVote(projectId: int, support: bool, writeThrows: bool) returns (attempt: Attempt)
      modifies this
      ensures old(Valid()) ==> Valid()
      ensures Step(GuardState(), attempt) == VoteStep(old(GuardState()), projectId, support, writeThrows)
      ensures writes == old(writes) + (if attempt.Submitted? then [attempt.call] else [])
      ensures projects == old(projects)
    {
      if isVotingRef {
        return BlockedByRef;
      }
      if votingProjectId.Some? {
        return BlockedByState(votingProjectId.value);
      }
      isVotingRef := true;
      votingProjectId := Some(projectId);
      votingSupport := Some(support);
      if writeThrows {
        votingProjectId := None;
        votingSupport := None;
        isVotingRef := false;
        attempt := WriteThrew;
      } else {
        writes := writes + [VoteOnProject(projectId, support)];
        attempt := Submitted(VoteOnProject(projectId, support));
      }
    }

    /** `fetchProjects`, with `read` giving the answer for each assignedIds id. */
    method FetchProjects(assignedIds: Option<seq<int>>, read: int -> ReadResponse)
      modifies this
      ensures projects == AssignedProjects(assignedIds, read)
      ensures GuardState() == old(GuardState()) && writes == old(writes)
    {
      projects := AssignedProjects(assignedIds, read);
    }

    /** The confirmation effect: re-fetch the projects and clear the guard. */
    method OnConfirmed(assignedIds: Option<seq<int>>, read: int -> ReadResponse)
      modifies this
      ensures Valid() && GuardState() == Released(old(GuardState()))
      ensures projects == AssignedProjects(assignedIds, read)
      ensures writes == old(writes)
    {
      FetchProjects(assignedIds, read);
      votingProjectId := None;
      votingSupport := None;
      isVotingRef := false;
    }

    /** The transaction-error effect: clear the guard; the projects are not re-fetched. */
    method OnTransactionError()
      modifies this
      ensures Valid() && GuardState() == Released(old(GuardState()))
      ensures projects == old(projects) && writes == old(writes)
    {
      votingProjectId := None;
      votingSupport := None;
      isVotingRef := false;
    }
  }
}
