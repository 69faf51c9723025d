/** The ledger event query endpoint (`POST /api/contract/events`): validate the event
    name against the four known event signatures, resolve the block range, fetch the
    logs and return them with every big integer written as decimal text.

    The ledger client is a parameter: a `Ledger` value says what `getBlockNumber` and
    `getLogs` answer, and the handler reports which of them it called, in order. */
module EventsRoute {
  import opened Common

  /** The event kinds the endpoint has an ABI signature for. */
  datatype EventKind = GrantDistributed | ProjectProposed | VoteCast | ProjectApproved

  function KindName(k: EventKind): string
  {
    match k
    case GrantDistributed => "GrantDistributed"
    case ProjectProposed => "ProjectProposed"
    case VoteCast => "VoteCast"
    case ProjectApproved => "ProjectApproved"
  }

  /** Looks a requested name up among the known signatures. */
  function KindOf(name: string): (r: Option<EventKind>)
    ensures r.Some? ==> KindName(r.value) == name
    ensures r.None? ==> forall k: EventKind :: KindName(k) != name
  {
    if name == "GrantDistributed" then Some(GrantDistributed)
    else if name == "ProjectProposed" then Some(ProjectProposed)
    else if name == "VoteCast" then Some(VoteCast)
    else if name == "ProjectApproved" then Some(ProjectApproved)
    else None
  }

  /** A block bound as the JSON body carries it: a number or a string. */
  datatype BlockArg = NumberBound(n: int) | TextBound(s: string)

  /** JavaScript truthiness of an optional bound: missing, 0 and "" are falsy. */
  predicate BoundGiven(a: Option<BlockArg>)
  {
    match a
    case None => false
    case Some(NumberBound(n)) => n != 0
    case Some(TextBound(s)) => s != ""
  }

  datatype Request = Request(eventName: Option<string>, fromBlock: Option<BlockArg>, toBlock: Option<BlockArg>)

  /** The block span the endpoint looks back over when no lower bound is given. */
  const DefaultSpan: int := 10000

  datatype Bound = Block(n: int) | ConversionError(message: string)

  /** `a ? BigInt(a) : fallback`. Text that is not an integer makes `BigInt` throw. */
  function ResolveBound(a: Option<BlockArg>, fallback: int): (r: Bound)
    ensures !BoundGiven(a) ==> r == Block(fallback)
    ensures BoundGiven(a) && a.value.NumberBound? ==> r == Block(a.value.n)
    ensures BoundGiven(a) && a.value.TextBound? ==>
      (r.Block? <==> IsIntegerText(a.value.s)) && (r.Block? ==> ParseInteger(a.value.s) == Some(r.n))
    ensures r.ConversionError? ==> r.message == "Cannot convert " + a.value.s + " to a BigInt"
  {
    if !BoundGiven(a) then Block(fallback)
    else match a.value
      case NumberBound(n) => Block(n)
      case TextBound(s) =>
        match ParseInteger(s)
        case Some(n) => Block(n)
        case None => ConversionError("Cannot convert " + s + " to a BigInt")
  }

  /** A decoded log argument as the ledger client returns it. */
  datatype ArgValue = BigIntArg(i: int) | StringArg(s: string) | BoolArg(b: bool) | NumberArg(n: int)

  /** A JSON scalar, after serialisation. */
  datatype Json = JString(s: string) | JBool(b: bool) | JNumber(n: int)

  datatype Log = Log(blockNumber: nat, transactionHash: string, logIndex: nat,
                     args: Option<seq<(string, ArgValue)>>)

  datatype SerializedLog = SerializedLog(blockNumber: string, transactionHash: string, logIndex: nat,
                                         args: seq<(string, Json)>)

  /** The JSON replacer: a big integer becomes its decimal text, anything else is kept. */
  function SerializeValue(v: ArgValue): (j: Json)
  {
    match v
    case BigIntArg(i) => JString(IntToDecimal(i))
    case StringArg(s) => JString(s)
    case BoolArg(b) => JBool(b)
    case NumberArg(n) => JNumber(n)
  }

  function SerializeArgs(args: seq<(string, ArgValue)>): (r: seq<(string, Json)>)
  {
    seq(|args|, k requires 0 <= k < |args| => (args[k].0, SerializeValue(args[k].1)))
  }

  function SerializeLog(l: Log): (e: SerializedLog)
  {
    SerializedLog(IntToDecimal(l.blockNumber), l.transactionHash, l.logIndex,
                  SerializeArgs(l.args.GetOr([])))
  }

  function SerializeLogs(logs: seq<Log>): (r: seq<SerializedLog>)
  {
    seq(|logs|, k requires 0 <= k < |logs| => SerializeLog(logs[k]))
  }

  /** What a client reading the JSON recovers for one value: the same value, with big
      integers read back from their text. */
  predicate ValueRepresented(j: Json, v: ArgValue)
  {
    match v
    case BigIntArg(i) => j.JString? && ParseInteger(j.s) == Some(i)
    case StringArg(s) => j == JString(s)
    case BoolArg(b) => j == JBool(b)
    case NumberArg(n) => j == JNumber(n)
  }

  /** A serialised entry carries exactly the information of its log. */
  predicate LogRepresented(e: SerializedLog, l: Log)
  {
    var args := l.args.GetOr([]);
    ParseInteger(e.blockNumber) == Some(l.blockNumber as int)
    && e.transactionHash == l.transactionHash
    && e.logIndex == l.logIndex
    && |e.args| == |args|
    && forall k :: 0 <= k < |args| ==> e.args[k].0 == args[k].0 && ValueRepresented(e.args[k].1, args[k].1)
  }

  /** Every big integer survives serialisation: reading the text back gives the value,
      and nothing else is altered. */
  lemma SerializeLogRepresents(l: Log)
    ensures LogRepresented(SerializeLog(l), l)
  {
    var e := SerializeLog(l);
    var args := l.args.GetOr([]);
    IntDecimalRoundTrip(l.blockNumber);
    forall k | 0 <= k < |args|
      ensures ValueRepresented(e.args[k].1, args[k].1)
    {
      if args[k].1.BigIntArg? {
        IntDecimalRoundTrip(args[k].1.i);
      }
    }
  }

  /** A ledger transport outcome: a value or an error with an optional message. */
  datatype Fetched<T> = Fetched(value: T) | TransportError(message: Option<string>)

  /** What the ledger answers during one request. */
  datatype Ledger = Ledger(currentBlock: Fetched<nat>, getLogs: (EventKind, int, int) -> Fetched<seq<Log>>)

  datatype LedgerCall = GetBlockNumber | GetLogs(kind: EventKind, from: int, to: int)

  datatype Body = Events(events: seq<SerializedLog>, count: nat) | Failure(error: string)

  datatype Response = Response(status: nat, body: Body)

  datatype Handled = Handled(response: Response, calls: seq<LedgerCall>)

  function ServerError(message: Option<string>): Response
  {
    Response(500, Failure(OrElse(message, "Failed to fetch events")))
  }

  /** The whole handler. */
  function Post(req: Request, ledger: Ledger): (h: Handled)
    // validation happens before any ledger call
    ensures !Truthy(req.eventName) ==>
      h == Handled(Response(400, Failure("Event name is required")), [])
    ensures Truthy(req.eventName) && KindOf(req.eventName.value).None? ==>
      h == Handled(Response(400, Failure("Unknown event: " + req.eventName.value)), [])
    // a valid name always reads the current block first, and at most one log query follows
    ensures Truthy(req.eventName) && KindOf(req.eventName.value).Some? ==>
      1 <= |h.calls| <= 2 && h.calls[0] == GetBlockNumber
    // the log query asks for the named kind over the resolved range
    ensures |h.calls| == 2 ==>
      ledger.currentBlock.Fetched? && h.calls[1].GetLogs?
      && Some(h.calls[1].kind) == KindOf(req.eventName.value)
      && ResolveBound(req.fromBlock, ledger.currentBlock.value - DefaultSpan) == Block(h.calls[1].from)
      && ResolveBound(req.toBlock, ledger.currentBlock.value) == Block(h.calls[1].to)
    // success: one entry per fetched log, in order, each carrying that log's content
    ensures h.response.body.Events? <==> h.response.status == 200
    ensures h.response.body.Events? ==>
      |h.calls| == 2
      && var q := h.calls[1];
         var fetched := ledger.getLogs(q.kind, q.from, q.to);
         fetched.Fetched?
         && h.response.body.count == |h.response.body.events| == |fetched.value|
         && forall k :: 0 <= k < |fetched.value| ==>
              LogRepresented(h.response.body.events[k], fetched.value[k])
    ensures h.response.status in {200, 400, 500}
    // past validation every failure is a 500 carrying the underlying message
    ensures Truthy(req.eventName) && KindOf(req.eventName.value).Some? ==> h.response.status != 400
    ensures Truthy(req.eventName) && KindOf(req.eventName.value).Some? && ledger.currentBlock.TransportError? ==>
      h.response == Response(500, Failure(OrElse(ledger.currentBlock.message, "Failed to fetch events")))
    // a bound that does not convert is a 500 with the conversion message, before any log query
    ensures Truthy(req.eventName) && KindOf(req.eventName.value).Some? && ledger.currentBlock.Fetched?
            && ResolveBound(req.fromBlock, ledger.currentBlock.value - DefaultSpan).ConversionError? ==>
      h == Handled(ServerError(Some(ResolveBound(req.fromBlock, ledger.currentBlock.value - DefaultSpan).message)),
                   [GetBlockNumber])
    ensures Truthy(req.eventName) && KindOf(req.eventName.value).Some? && ledger.currentBlock.Fetched?
            && ResolveBound(req.fromBlock, ledger.currentBlock.value - DefaultSpan).Block?
            && ResolveBound(req.toBlock, ledger.currentBlock.value).ConversionError? ==>
      h == Handled(ServerError(Some(ResolveBound(req.toBlock, ledger.currentBlock.value).message)), [GetBlockNumber])
    // with a valid name, the current block and two converted bounds, the logs are queried once:
    // the answer is 200 exactly when they arrive, and a transport error is a 500 with its message
    ensures Truthy(req.eventName) && KindOf(req.eventName.value).Some? && ledger.currentBlock.Fetched?
            && ResolveBound(req.fromBlock, ledger.currentBlock.value - DefaultSpan).Block?
            && ResolveBound(req.toBlock, ledger.currentBlock.value).Block? ==>
      var kind := KindOf(req.eventName.value).value;
      var from := ResolveBound(req.fromBlock, ledger.currentBlock.value - DefaultSpan).n;
      var to := ResolveBound(req.toBlock, ledger.currentBlock.value).n;
      var fetched := ledger.getLogs(kind, from, to);
      h.calls == [GetBlockNumber, GetLogs(kind, from, to)]
      && (fetched.Fetched? <==> h.response.status == 200)
      && (fetched.TransportError? ==> h.response == ServerError(fetched.message))
  {
    if !Truthy(req.eventName) then
      Handled(Response(400, Failure("Event name is required")), [])
    else
      var name := req.eventName.value;
      match KindOf(name)
      case None =>
        Handled(Response(400, Failure("Unknown event: " + name)), [])
      case Some(kind) =>
        match ledger.currentBlock
        case TransportError(m) => Handled(ServerError(m), [GetBlockNumber])
        case Fetched(current) =>
          match ResolveBound(req.fromBlock, current - DefaultSpan)
          case ConversionError(m) => Handled(ServerError(Some(m)), [GetBlockNumber])
          case Block(from) =>
            match ResolveBound(req.toBlock, current)
            case ConversionError(m) => Handled(ServerError(Some(m)), [GetBlockNumber])
            case Block(to) =>
              var calls := [GetBlockNumber, GetLogs(kind, from, to)];
              match ledger.getLogs(kind, from, to)
              case TransportError(m) => Handled(ServerError(m), calls)
              case Fetched(logs) =>
                var events := SerializeLogs(logs);
                forall k | 0 <= k < |logs| ensures LogRepresented(events[k], logs[k]) {
                  SerializeLogRepresents(logs[k]);
                }
                Handled(Response(200, Events(events, |events|)), calls)
  }

  /** With no bounds in the request the range is the last 10000 blocks up to the
      current one; the lower end is not clamped at zero. */
  lemma DefaultRange(req: Request, ledger: Ledger)
    requires Truthy(req.eventName) && KindOf(req.eventName.value).Some?
    requires !BoundGiven(req.fromBlock) && !BoundGiven(req.toBlock)
    requires ledger.currentBlock.Fetched?
    ensures var current := ledger.currentBlock.value;
            Post(req, ledger).calls
            == [GetBlockNumber, GetLogs(KindOf(req.eventName.value).value, current - 10000, current)]
  {
  }
}
