/** The project registration form: three requests in a fixed order (repository
    metrics, AI impact score, project record), the first failure aborting the run, and
    the form cleared only when all three succeed.

    The answers of the three endpoints are parameters; `Pipeline` says which requests a
    run issues and how it ends, and `RegisterForm.HandleSubmit` performs the run step
    by step on the component's state. */
module RegisterProject {
  import opened Common
  import VotingPanel
  import ProjectsRoute

  datatype Form = Form(name: string, description: string, githubUrl: string)

  const EmptyForm := Form("", "", "")

  /** The JSON answer of one step (its `success` flag, optional `error` message and
      optional `data`), or the exception the request or the body parsing threw. */
  datatype Answer<T> = Reply(success: bool, error: Option<string>, data: Option<T>) | Threw(message: Option<string>)

  predicate Succeeded<T>(a: Answer<T>)
  {
    a.Reply? && a.success
  }

  /** The message a failed step reports: the answer's error, or the step's own default. */
  function FailureMessage<T>(a: Answer<T>, fallback: string): (m: string)
    requires !Succeeded(a)
  {
    match a
    case Reply(_, error, _) => OrElse(error, fallback)
    case Threw(message) => OrElse(message, "Failed to register project")
  }

  /** The body of the persist request: the connected address and the three form fields.
      It carries no AI score. */
  datatype PersistBody = PersistBody(projectAddress: string, name: string, description: string, githubUrl: string)

  datatype Request =
    | FetchMetrics(githubUrl: string)
    | RequestScore(form: Form, metrics: Option<VotingPanel.RawMetrics>)
    | Persist(body: PersistBody)

  datatype StepName = MetricsStep | ScoreStep | PersistStep

  datatype Outcome = NotConnected | Registered | Failed(step: StepName, message: string)

  datatype Run = Run(requests: seq<Request>, outcome: Outcome)

  /** The requests of one run after the wallet check, and how it ends. */
  function Pipeline(form: Form, address: string, metrics: Answer<VotingPanel.RawMetrics>,
                    score: Answer<()>, persist: Answer<()>): (r: Run)
    // the steps run in a fixed order, each only after the previous one succeeded
    ensures 1 <= |r.requests| <= 3
    ensures r.requests[0] == FetchMetrics(form.githubUrl)
    ensures |r.requests| >= 2 <==> Succeeded(metrics)
    ensures |r.requests| == 3 <==> Succeeded(metrics) && Succeeded(score)
    ensures |r.requests| >= 2 ==> r.requests[1] == RequestScore(form, metrics.data)
    ensures |r.requests| == 3 ==>
      r.requests[2] == Persist(PersistBody(address, form.name, form.description, form.githubUrl))
    // the run succeeds exactly when all three steps do; otherwise it names the first failure
    ensures r.outcome == Registered <==> Succeeded(metrics) && Succeeded(score) && Succeeded(persist)
    ensures !Succeeded(metrics) ==>
      r.outcome == Failed(MetricsStep, FailureMessage(metrics, "Failed to fetch GitHub data"))
    ensures Succeeded(metrics) && !Succeeded(score) ==>
      r.outcome == Failed(ScoreStep, FailureMessage(score, "Failed to calculate impact score"))
    ensures Succeeded(metrics) && Succeeded(score) && !Succeeded(persist) ==>
      r.outcome == Failed(PersistStep, FailureMessage(persist, "Failed to register project"))
  {
    var first := [FetchMetrics(form.githubUrl)];
    if !Succeeded(metrics) then
      Run(first, Failed(MetricsStep, FailureMessage(metrics, "Failed to fetch GitHub data")))
    else
      var second := first + [RequestScore(form, metrics.data)];
      if !Succeeded(score) then
        Run(second, Failed(ScoreStep, FailureMessage(score, "Failed to calculate impact score")))
      else
        var third := second + [Persist(PersistBody(address, form.name, form.description, form.githubUrl))];
        if !Succeeded(persist) then
          Run(third, Failed(PersistStep, FailureMessage(persist, "Failed to register project")))
        else
          Run(third, Registered)
  }

  /** The record body the project endpoint receives from the persist step: the four
      fields, and no score, transaction hash or ledger id. */
  function PersistInput(b: PersistBody): (input: ProjectsRoute.PostInput)
    ensures input.aiScore.None?
  {
    ProjectsRoute.PostInput(Some(b.projectAddress), Some(b.name), Some(b.description), Some(b.githubUrl),
                            None, None, None)
  }

  /** The row the project endpoint stores for a persist request, if any: whatever score
      the AI step computed, the stored `impact_score` is 0, and an empty address, name
      or repository URL is refused. */
  function PersistedRow(b: PersistBody, table: ProjectsRoute.Table): (row: Option<ProjectsRoute.Row>)
    ensures row.Some? <==> b.projectAddress != "" && b.name != "" && b.githubUrl != ""
    ensures row.Some? ==>
      row.value.impactScore == 0 && row.value.isActive && !row.value.isVerified
      && row.value.name == b.name && row.value.githubUrl == b.githubUrl
      && row.value.projectAddress == b.projectAddress
  {
    var r := ProjectsRoute.Post(PersistInput(b), table, ProjectsRoute.StoreOk);
    if r.response.body.Created? then Some(r.response.body.project) else None
  }

  class RegisterForm {
    var loading: bool
    var form: Form
    /** The requests issued so far, in order. */
    var requests: seq<Request>

    constructor ()
      ensures !loading && form == EmptyForm && requests == []
    {
      loading := false;
      form := EmptyForm;
      requests := [];
    }

    /** `handleSubmit`. */
    method HandleSubmit(isConnected: bool, address: Option<string>, metrics: Answer<VotingPanel.RawMetrics>,
                        score: Answer<()>, persist: Answer<()>) returns (outcome: Outcome)
      modifies this
      // without a wallet nothing is requested and nothing changes
      ensures !isConnected || !Truthy(address) ==>
        outcome == NotConnected && loading == old(loading) && form == old(form) && requests == old(requests)
      ensures isConnected && Truthy(address) ==>
        var run := Pipeline(old(form), address.value, metrics, score, persist);
        requests == old(requests) + run.requests && outcome == run.outcome
        && !loading
        && form == (if outcome == Registered then EmptyForm else old(form))
    {
      if !isConnected || !Truthy(address) {
        return NotConnected;
      }
      loading := true;
      requests := requests + [FetchMetrics(form.githubUrl)];
      if !Succeeded(metrics) {
        outcome := Failed(MetricsStep, FailureMessage(metrics, "Failed to fetch GitHub data"));
      } else {
        requests := requests + [RequestScore(form, metrics.data)];
        if !Succeeded(score) {
          outcome := Failed(ScoreStep, FailureMessage(score, "Failed to calculate impact score"));
        } else {
          requests := requests + [Persist(PersistBody(address.value, form.name, form.description, form.githubUrl))];
          if !Succeeded(persist) {
            outcome := Failed(PersistStep, FailureMessage(persist, "Failed to register project"));
          } else {
            outcome := Registered;
            form := EmptyForm;
          }
        }
      }
      loading := false;
    }
  }
}
