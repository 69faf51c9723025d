/** The project record endpoint (`/api/projects`) over the `projects` table.

    The table is a sequence of rows in storage order plus the next id the store assigns.
    Whether the store call fails is a parameter (`Store`), since the database is not
    part of this model. */
module ProjectsRoute {
  import opened Common

  datatype Row = Row(
    id: nat,
    projectAddress: string,
    name: string,
    description: Option<string>,
    githubUrl: string,
    blockchainTxHash: Option<string>,
    blockchainProjectId: Option<int>,
    impactScore: int,
    totalGrantsReceived: int,
    isActive: bool,
    isVerified: bool)

  datatype Table = Table(rows: seq<Row>, nextId: nat)

  /** The outcome of one store call. */
  datatype Store = StoreOk | StoreError(message: Option<string>)

  /** The fields a POST body may carry; `None` is a missing (undefined or null) field. */
  datatype PostInput = PostInput(
    projectAddress: Option<string>,
    name: Option<string>,
    description: Option<string>,
    githubUrl: Option<string>,
    blockchainTxHash: Option<string>,
    blockchainProjectId: Option<int>,
    aiScore: Option<int>)

  datatype Body = Created(project: Row) | Listed(projects: seq<Row>) | Failure(error: string)

  datatype Response = Response(status: nat, body: Body)

  datatype PostResult = PostResult(response: Response, table: Table)

  /** The three fields a new record cannot do without; the description is optional. */
  predicate HasRequiredFields(input: PostInput)
  {
    Truthy(input.projectAddress) && Truthy(input.name) && Truthy(input.githubUrl)
  }

  /** `aiScore || 0`: a missing score and a zero score both store 0. */
  function ImpactScoreOf(aiScore: Option<int>): (s: int)
    ensures aiScore.Some? ==> s == aiScore.value
    ensures aiScore.None? ==> s == 0
  {
    aiScore.GetOr(0)
  }

  /** The row a valid POST inserts, under the id the store assigns. */
  function NewRow(input: PostInput, id: nat): (row: Row)
    requires HasRequiredFields(input)
    ensures row.id == id
    ensures row.projectAddress == input.projectAddress.value && row.name == input.name.value
    ensures row.githubUrl == input.githubUrl.value && row.description == input.description
    ensures row.impactScore == ImpactScoreOf(input.aiScore)
    ensures row.totalGrantsReceived == 0 && row.isActive && !row.isVerified
    // `blockchainTxHash || null`: an empty hash is stored as null
    ensures row.blockchainTxHash.Some? <==> Truthy(input.blockchainTxHash)
    ensures row.blockchainTxHash.Some? ==> row.blockchainTxHash == input.blockchainTxHash
    // `!== undefined ? id : null`: an id of 0 is kept
    ensures row.blockchainProjectId == input.blockchainProjectId
  {
    Row(id, input.projectAddress.value, input.name.value, input.description, input.githubUrl.value,
        if Truthy(input.blockchainTxHash) then input.blockchainTxHash else None,
        input.blockchainProjectId,
        ImpactScoreOf(input.aiScore), 0, true, false)
  }

  /** `POST /api/projects`. */
  function Post(input: PostInput, table: Table, store: Store): (r: PostResult)
    ensures !HasRequiredFields(input) ==>
      r == PostResult(Response(400, Failure("Missing required fields")), table)
    ensures HasRequiredFields(input) && store.StoreError? ==>
      r == PostResult(Response(500, Failure(OrElse(store.message, "Failed to create project"))), table)
    // a successful POST appends exactly one row and returns it
    ensures r.response.body.Created? <==> HasRequiredFields(input) && store.StoreOk?
    ensures r.response.body.Created? ==>
      r.response.status == 200
      && r.table.rows == table.rows + [r.response.body.project]
      && r.table.nextId == table.nextId + 1
      && r.response.body.project == NewRow(input, table.nextId)
    ensures !r.response.body.Created? ==> r.table == table
  {
    if !HasRequiredFields(input) then
      PostResult(Response(400, Failure("Missing required fields")), table)
    else match store
      case StoreError(m) =>
        PostResult(Response(500, Failure(OrElse(m, "Failed to create project"))), table)
      case StoreOk =>
        var row := NewRow(input, table.nextId);
        PostResult(Response(200, Created(row)), Table(table.rows + [row], table.nextId + 1))
  }

  /** The rows with `is_active = true`, in storage order. */
  function ActiveRows(rows: seq<Row>): (r: seq<Row>)
    ensures forall x :: multiset(r)[x] == if x.isActive then multiset(rows)[x] else 0
  {
    if rows == [] then []
    else
      assert rows == [rows[0]] + rows[1..];
      if rows[0].isActive then [rows[0]] + ActiveRows(rows[1..]) else ActiveRows(rows[1..])
  }

  predicate ScoreDescending(s: seq<Row>)
  {
    forall i, j :: 0 <= i < j < |s| ==> s[i].impactScore >= s[j].impactScore
  }

  /** Places `x` before the first row whose score it reaches. */
  function InsertByScore(x: Row, s: seq<Row>): (r: seq<Row>)
    requires ScoreDescending(s)
    ensures ScoreDescending(r)
    ensures multiset(r) == multiset(s) + multiset{x}
    ensures |r| == |s| + 1
  {
    if s == [] || x.impactScore >= s[0].impactScore then [x] + s
    else
      var rest := InsertByScore(x, s[1..]);
      assert s == [s[0]] + s[1..];
      ScoreAtLeastAll(s[0], x, s[1..], rest);
      [s[0]] + rest
  }

  /** A row scoring at least `x` and every row of `s` scores at least every row of a
      list holding exactly `s` and `x`. */
  lemma ScoreAtLeastAll(y: Row, x: Row, s: seq<Row>, r: seq<Row>)
    requires y.impactScore >= x.impactScore
    requires forall k :: 0 <= k < |s| ==> y.impactScore >= s[k].impactScore
    requires multiset(r) == multiset(s) + multiset{x}
    ensures forall j :: 0 <= j < |r| ==> y.impactScore >= r[j].impactScore
  {
    forall j | 0 <= j < |r| ensures y.impactScore >= r[j].impactScore {
      assert r[j] in multiset(r);
      if r[j] != x {
        assert r[j] in multiset(s);
        var k :| 0 <= k < |s| && s[k] == r[j];
      }
    }
  }

  /** `order('impact_score', { ascending: false })`. Rows of equal score keep their
      storage order. */
  function OrderByScoreDesc(rows: seq<Row>): (r: seq<Row>)
    ensures ScoreDescending(r)
    ensures multiset(r) == multiset(rows)
  {
    if rows == [] then []
    else
      assert rows == [rows[0]] + rows[1..];
      InsertByScore(rows[0], OrderByScoreDesc(rows[1..]))
  }

  /** `GET /api/projects`. */
  function Get(table: Table, store: Store): (r: Response)
    ensures store.StoreError? ==> r == Response(500, Failure(OrElse(store.message, "Failed to fetch projects")))
    ensures store.StoreOk? ==>
      r.status == 200 && r.body.Listed?
      && ScoreDescending(r.body.projects)
      && forall x :: multiset(r.body.projects)[x] == if x.isActive then multiset(table.rows)[x] else 0
  {
    match store
    case StoreError(m) => Response(500, Failure(OrElse(m, "Failed to fetch projects")))
    case StoreOk => Response(200, Listed(OrderByScoreDesc(ActiveRows(table.rows))))
  }

  /** A row created by a successful POST is listed by the next successful GET, and a
      listing never shows an inactive row. */
  lemma CreatedRowIsListed(input: PostInput, table: Table)
    requires HasRequiredFields(input)
    ensures var p := Post(input, table, StoreOk);
            var listed := Get(p.table, StoreOk).body.projects;
            p.response.body.project in listed
            && forall x :: x in listed ==> x.isActive
  {
    var p := Post(input, table, StoreOk);
    var listed := Get(p.table, StoreOk).body.projects;
    var row := p.response.body.project;
    assert multiset(p.table.rows)[row] >= 1 by {
      assert p.table.rows[|p.table.rows| - 1] == row;
    }
    assert multiset(listed)[row] >= 1;
    forall x | x in listed ensures x.isActive {
      assert multiset(listed)[x] > 0;
    }
  }
}
