/** The project leaderboard: the list served by `GET /api/projects`, shown in the
    order served, with a rank colour and badge per position. */
module ProjectLeaderboard {
  import opened Common
  import ProjectsRoute

  /** The gradient of the rank badge at `index`. */
  function RankColor(index: nat): (c: string)
    ensures index >= 3 ==> c == "from-blue-500 to-purple-500"
    ensures index < 3 ==> c != "from-blue-500 to-purple-500"
  {
    if index == 0 then "from-yellow-500 to-orange-500"
    else if index == 1 then "from-gray-400 to-gray-500"
    else if index == 2 then "from-orange-700 to-orange-800"
    else "from-blue-500 to-purple-500"
  }

  /** The first three positions each have a gradient of their own. */
  lemma TopThreeColorsDistinct(i: nat, j: nat)
    requires i < 3 && j < 3 && i != j
    ensures RankColor(i) != RankColor(j)
  {
  }

  datatype RankIcon = Trophy | Award

  function RankIconFor(index: nat): (icon: RankIcon)
    ensures icon == Trophy <==> index < 3
  {
    if index < 3 then Trophy else Award
  }

  datatype Badge = IconBadge(icon: RankIcon) | NumberBadge(n: nat)

  /** The badge content: the trophy for the first three, the 1-based position after. */
  function BadgeFor(index: nat): (b: Badge)
    ensures index < 3 ==> b == IconBadge(Trophy)
    ensures index >= 3 ==> b == NumberBadge(index + 1)
  {
    if index < 3 then IconBadge(RankIconFor(index)) else NumberBadge(index + 1)
  }

  datatype Entry = Entry(project: ProjectsRoute.Row, color: string, badge: Badge)

  /** The rows as rendered: one entry per project, in the order served. */
  function Rendered(projects: seq<ProjectsRoute.Row>): (r: seq<Entry>)
    ensures |r| == |projects|
    ensures forall i :: 0 <= i < |r| ==>
      r[i].project == projects[i] && r[i].color == RankColor(i) && r[i].badge == BadgeFor(i)
  {
    seq(|projects|, i requires 0 <= i < |projects| => Entry(projects[i], RankColor(i), BadgeFor(i)))
  }

  /** The answer of `fetch('/api/projects')` as the component sees it: the request or the
      body parsing threw, or a JSON body with `success` and an optional `projects`. */
  datatype FetchAnswer = FetchThrew | Answer(success: bool, projects: Option<seq<ProjectsRoute.Row>>)

  /** The JSON body a response of the project endpoint turns into. */
  function AnswerOf(r: ProjectsRoute.Response): (a: FetchAnswer)
    ensures r.body.Listed? ==> a == Answer(true, Some(r.body.projects))
    ensures r.body.Failure? ==> a.Answer? && !a.success
  {
    match r.body
    case Listed(ps) => Answer(true, Some(ps))
    case Created(_) => Answer(true, None)
    case Failure(_) => Answer(false, None)
  }

  class Leaderboard {
    var projects: seq<ProjectsRoute.Row>
    var loading: bool

    constructor ()
      ensures projects == [] && loading
    {
      projects := [];
      loading := true;
    }

    /** `fetchProjects`: a successful answer replaces the list (an answer without a list
        empties it); anything else keeps it. Loading ends in every case. */
    method FetchProjects(answer: FetchAnswer)
      modifies this
      ensures !loading
      ensures answer.Answer? && answer.success ==> projects == answer.projects.GetOr([])
      ensures !(answer.Answer? && answer.success) ==> projects == old(projects)
    {
      if answer.Answer? && answer.success {
        projects := answer.projects.GetOr([]);
      }
      loading := false;
    }
  }

  /** Fed from the project endpoint, the leaderboard shows only active rows, and every
      position ranks at least as high in impact score as every later one; in particular
      each trophy goes to a score no lower than any numbered position. */
  lemma ServedListingIsRanked(table: ProjectsRoute.Table, i: nat, j: nat)
    requires var a := AnswerOf(ProjectsRoute.Get(table, ProjectsRoute.StoreOk));
             i < j < |a.projects.value|
    ensures var a := AnswerOf(ProjectsRoute.Get(table, ProjectsRoute.StoreOk));
            var shown := Rendered(a.projects.value);
            shown[i].project.impactScore >= shown[j].project.impactScore
            && shown[i].project.isActive
  {
    var listed := ProjectsRoute.Get(table, ProjectsRoute.StoreOk).body.projects;
    assert multiset(listed)[listed[i]] > 0;
  }
}
