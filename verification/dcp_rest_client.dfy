/**
 * The decision logic of the synchronous REST client for Xenon document
 * services: status classification, replica address choice, per-verb request
 * shape, batched GETs, broadcast and paged queries, and the polling loop that
 * waits for a query task to reach a terminal stage.
 *
 * The transport is not modelled. What the network, the latches, the clock and
 * the random server pick would supply is passed in:
 *  - a `Completion` says how one sent operation came back;
 *  - a `JoinOutcome`, asked with the wait in microseconds, says how a batch came back;
 *  - an `Env` carries the clock reading, the random picks, the request id and the next
 *    operation id;
 *  - for polling, `ticks(i)` gives the clock when the i-th GET was built and when the
 *    loop condition was evaluated after it, and `responses(i)` its completion.
 */
module DcpRestClient {
  import opened Wrappers
  import opened TaskStages

  // Xenon's Operation status codes.
  const STATUS_CODE_OK: int := 200
  const STATUS_CODE_ACCEPTED: int := 202
  const STATUS_CODE_BAD_REQUEST: int := 400
  const STATUS_CODE_NOT_FOUND: int := 404
  const STATUS_CODE_TIMEOUT: int := 408

  const MICROS_PER_SECOND: int := 1_000_000
  const POST_OPERATION_EXPIRATION_MICROS: int := 60 * MICROS_PER_SECOND
  const GET_OPERATION_EXPIRATION_MICROS: int := 120 * MICROS_PER_SECOND
  const QUERY_OPERATION_EXPIRATION_MICROS: int := 60 * MICROS_PER_SECOND
  const DELETE_OPERATION_EXPIRATION_MICROS: int := 60 * MICROS_PER_SECOND
  const PATCH_OPERATION_EXPIRATION_MICROS: int := 60 * MICROS_PER_SECOND
  const DEFAULT_OPERATION_LATCH_TIMEOUT_MICROS: int := 90 * MICROS_PER_SECOND
  /** The 100 ms sleep between two polls of a query task, in microseconds. */
  const SERVICE_DOCUMENT_STATUS_CHECK_INTERVAL_MICROS: int := 100 * 1000

  // Xenon's well-known service paths.
  const CORE_QUERY_TASKS: string := "/core/query-tasks"
  const CORE_LOCAL_QUERY_TASKS: string := "/core/local-query-tasks"
  const DEFAULT_NODE_SELECTOR: string := "/core/node-selectors/default"

  const EMPTY_LINKS_MESSAGE: string := "documentSelfLinks collection cannot be empty"
  const BATCH_SIZE_MESSAGE: string := "batchSize must be greater than zero"
  const NULL_DOCUMENT_TYPE_MESSAGE: string := "Cannot query documents with null documentType"
  const PAGE_SIZE_MESSAGE: string := "Cannot query documents with a page size less than 1"
  const NULL_PAGE_LINK_MESSAGE: string := "Cannot query documents with null pageLink"
  const EMPTY_PAGE_LINK_MESSAGE: string := "Cannot query documents with empty pageLink"
  const NO_SELF_LINK_MESSAGE: string := "query task has no documentSelfLink"

  datatype Action = GET | POST | PATCH | DELETE

  /** `broadcastSelector` is set on a URI built by UriUtils.buildBroadcastRequestUri. */
  datatype Uri = Uri(scheme: string, host: string, port: int, path: string, broadcastSelector: Option<string>)

  /** One member of the server set: its host address (textual) and port. */
  datatype ServerAddress = ServerAddress(address: string, port: int)

  /** A document's JSON fields. */
  type Document = map<string, string>

  datatype QueryOption = BROADCAST | EXPAND_CONTENT

  datatype QuerySpec = QuerySpec(
    documentKind: string,
    terms: map<string, string>,
    options: set<QueryOption>,
    resultLimit: Option<int>)

  datatype QueryResult = QueryResult(
    documentLinks: seq<string>,
    documents: map<string, Document>,
    nextPageLink: Option<string>)

  datatype Body =
    | NoBody
    | DocumentBody(document: Document)
    | QueryTaskRequest(spec: QuerySpec, direct: bool)
    | QueryTaskState(selfLink: string, stage: TaskStage, results: QueryResult)
    | BroadcastQueryResponse(nodeResults: seq<QueryResult>)
    | ErrorResponse(message: string)

  /** A Xenon operation; `statusCode` and `body` are overwritten when it completes. */
  datatype Operation = Operation(
    id: int,
    action: Action,
    uri: Uri,
    expirationMicros: int,
    noQueuing: bool,
    body: Body,
    referer: Uri,
    contextId: Option<string>,
    statusCode: int)

  /** The exceptions the client throws. */
  datatype ClientError =
    | DocumentNotFound
    | BadRequest(message: string)
    | Timeout(message: string)
    | PollTimeout(expirationMicros: int)
    | RuntimeFailure(statusCode: int)
    | Interrupted
    | IllegalArgument(message: string)
    | NullReference(message: string)
    | NoServerAvailable

  /** The client's fixed configuration: the server set in iteration order and this host. */
  datatype Client = Client(servers: seq<ServerAddress>, localHostAddress: string, localHostUri: Uri)

  /** What one call reads from its surroundings. */
  datatype Env = Env(nowMicros: int, pick: nat -> nat, requestId: Option<string>, nextOperationId: int)

  /** How a single sent operation came back from its latch. */
  datatype Completion = Completed(statusCode: int, body: Body) | LatchTimedOut(message: string) | LatchInterrupted

  datatype Response = Response(statusCode: int, body: Body)

  /** How a joined batch came back from its latch; completed responses are looked up by operation id. */
  datatype JoinOutcome = JoinCompleted(responseTo: int -> Response) | JoinTimedOut(message: string) | JoinInterrupted

  // ---------------------------------------------------------------------------
  // Classification

  predicate IsSuccessStatus(code: int) {
    code == STATUS_CODE_OK || code == STATUS_CODE_ACCEPTED
  }

  function ErrorMessage(body: Body): string {
    if body.ErrorResponse? then body.message else ""
  }

  /** Sorts a completed operation into normal return or one of the client's exceptions. */
  function HandleOperationResult(completed: Operation): (r: Outcome<ClientError>)
    ensures r.Pass? <==> IsSuccessStatus(completed.statusCode)
    ensures r == Fail(DocumentNotFound) <==> completed.statusCode == STATUS_CODE_NOT_FOUND
    ensures (r.Fail? && r.error.Timeout?) <==> completed.statusCode == STATUS_CODE_TIMEOUT
    ensures (r.Fail? && r.error.BadRequest?) <==> completed.statusCode == STATUS_CODE_BAD_REQUEST
    ensures (r.Fail? && r.error.RuntimeFailure?) <==>
      (!IsSuccessStatus(completed.statusCode) && completed.statusCode != STATUS_CODE_NOT_FOUND
       && completed.statusCode != STATUS_CODE_TIMEOUT && completed.statusCode != STATUS_CODE_BAD_REQUEST)
    ensures r.Fail? && r.error.RuntimeFailure? ==> r.error.statusCode == completed.statusCode
    ensures r.Fail? ==> r.error.DocumentNotFound? || r.error.Timeout? || r.error.BadRequest? || r.error.RuntimeFailure?
  {
    ClassifyResponse(Response(completed.statusCode, completed.body))
  }

  /** The classification reads only the status code and the body of the reply. */
  function ClassifyResponse(response: Response): Outcome<ClientError> {
    var code := response.statusCode;
    if code == STATUS_CODE_OK || code == STATUS_CODE_ACCEPTED then Pass
    else if code == STATUS_CODE_NOT_FOUND then Fail(DocumentNotFound)
    else if code == STATUS_CODE_TIMEOUT then Fail(Timeout(ErrorMessage(response.body)))
    else if code == STATUS_CODE_BAD_REQUEST then Fail(BadRequest(ErrorMessage(response.body)))
    else Fail(RuntimeFailure(code))
  }

  /** Classifies every completed operation of a batch in turn; the first failure is thrown. */
  method HandleOperationResults(completed: seq<Operation>) returns (r: Outcome<ClientError>)
    ensures r.Pass? <==> forall i :: 0 <= i < |completed| ==> IsSuccessStatus(completed[i].statusCode)
    ensures r.Fail? ==> exists i :: 0 <= i < |completed| && HandleOperationResult(completed[i]) == r
                          && forall j :: 0 <= j < i ==> IsSuccessStatus(completed[j].statusCode)
  {
    var k := 0;
    while k < |completed|
      invariant 0 <= k <= |completed|
      invariant forall j :: 0 <= j < k ==> IsSuccessStatus(completed[j].statusCode)
    {
      var outcome := HandleOperationResult(completed[k]);
      if outcome.Fail? {
        return outcome;
      }
      k := k + 1;
    }
    return Pass;
  }

  function Complete(requested: Operation, statusCode: int, body: Body): Operation {
    requested.(statusCode := statusCode, body := body)
  }

  /**
   * Sends one operation and waits for it. The latch's timeout and interrupt are
   * rethrown, so an operation is returned only when it passed classification.
   */
  function Send(requested: Operation, completion: Completion): (r: Result<Operation, ClientError>)
    ensures r.Success? <==> completion.Completed? && IsSuccessStatus(completion.statusCode)
    ensures r.Success? ==> r.value == Complete(requested, completion.statusCode, completion.body)
    ensures r.Success? ==> IsSuccessStatus(r.value.statusCode)
    ensures completion.LatchTimedOut? ==> r == Failure(Timeout(completion.message))
    ensures completion.LatchInterrupted? ==> r == Failure(Interrupted)
    ensures completion.Completed? && r.Failure? ==>
      Fail(r.error) == HandleOperationResult(Complete(requested, completion.statusCode, completion.body))
  {
    match completion
    case LatchTimedOut(message) => Failure(Timeout(message))
    case LatchInterrupted => Failure(Interrupted)
    case Completed(statusCode, body) =>
      var completed := Complete(requested, statusCode, body);
      match HandleOperationResult(completed)
      case Pass => Success(completed)
      case Fail(error) => Failure(error)
  }

  // ---------------------------------------------------------------------------
  // Replica address choice

  /** The position of the first server whose address is this host's, if any. */
  function FirstLocalServer(servers: seq<ServerAddress>, localHostAddress: string): (r: Option<nat>)
    ensures r.Some? ==> r.value < |servers| && servers[r.value].address == localHostAddress
    ensures r.Some? ==> forall j :: 0 <= j < r.value ==> servers[j].address != localHostAddress
    ensures r.None? <==> forall j :: 0 <= j < |servers| ==> servers[j].address != localHostAddress
  {
    if |servers| == 0 then None
    else if servers[0].address == localHostAddress then Some(0)
    else match FirstLocalServer(servers[1..], localHostAddress)
      case None => None
      case Some(k) => Some(k + 1)
  }

  /**
   * The URI of `path` on the chosen replica: the first local server if there is
   * one, otherwise the server the random pick lands on.
   */
  function GetServiceUri(client: Client, pick: nat, path: string): (r: Result<Uri, ClientError>)
    ensures r.Success? <==> |client.servers| > 0
    ensures r.Failure? ==> r.error == NoServerAvailable
    ensures r.Success? ==> r.value.scheme == "http" && r.value.path == path && r.value.broadcastSelector.None?
    ensures r.Success? ==> exists i :: 0 <= i < |client.servers| && client.servers[i] == ServerAddress(r.value.host, r.value.port)
    ensures r.Success? && (exists i :: 0 <= i < |client.servers| && client.servers[i].address == client.localHostAddress) ==>
      r.value.host == client.localHostAddress
    ensures r.Success? && FirstLocalServer(client.servers, client.localHostAddress).Some? ==>
      ServerAddress(r.value.host, r.value.port) == client.servers[FirstLocalServer(client.servers, client.localHostAddress).value]
    ensures r.Success? && (forall i :: 0 <= i < |client.servers| ==> client.servers[i].address != client.localHostAddress) ==>
      ServerAddress(r.value.host, r.value.port) == client.servers[pick % |client.servers|]
  {
    if |client.servers| == 0 then Failure(NoServerAvailable)
    else
      var chosen :=
        match FirstLocalServer(client.servers, client.localHostAddress)
        case Some(k) => client.servers[k]
        case None => client.servers[pick % |client.servers|];
      Success(Uri("http", chosen.address, chosen.port, path, None))
  }

  // ---------------------------------------------------------------------------
  // Per-verb requests

  function NewOperation(client: Client, env: Env, action: Action, uri: Uri, expirationWindow: int, noQueuing: bool, body: Body): Operation {
    Operation(env.nextOperationId, action, uri, env.nowMicros + expirationWindow, noQueuing, body, client.localHostUri, env.requestId, 0)
  }

  /** The request-side shape every builder promises: verb, deadline, pragma, target path, referer and context id. */
  predicate IsRequest(op: Operation, client: Client, env: Env, action: Action, expirationWindow: int, noQueuing: bool, path: string) {
    && op.action == action
    && op.expirationMicros == env.nowMicros + expirationWindow
    && op.noQueuing == noQueuing
    && op.uri.path == path
    && op.referer == client.localHostUri
    && op.contextId == env.requestId
  }

  function Post(client: Client, env: Env, path: string, body: Body, completion: Completion): (r: Result<Operation, ClientError>)
    ensures r.Success? <==> |client.servers| > 0 && completion.Completed? && IsSuccessStatus(completion.statusCode)
    ensures r.Success? ==> (IsSuccessStatus(r.value.statusCode)
      && IsRequest(r.value, client, env, POST, POST_OPERATION_EXPIRATION_MICROS, false, path))
  {
    var uri :- GetServiceUri(client, env.pick(0), path);
    Send(NewOperation(client, env, POST, uri, POST_OPERATION_EXPIRATION_MICROS, false, body), completion)
  }

  function Get(client: Client, env: Env, path: string, completion: Completion): (r: Result<Operation, ClientError>)
    ensures r.Success? <==> |client.servers| > 0 && completion.Completed? && IsSuccessStatus(completion.statusCode)
    ensures r.Success? ==> (IsSuccessStatus(r.value.statusCode)
      && IsRequest(r.value, client, env, GET, GET_OPERATION_EXPIRATION_MICROS, true, path))
    ensures r.Success? ==> r.value.body == completion.body
  {
    var uri :- GetServiceUri(client, env.pick(0), path);
    Send(NewOperation(client, env, GET, uri, GET_OPERATION_EXPIRATION_MICROS, true, NoBody), completion)
  }

  /** GET of a ready-made URI: no replica is chosen. */
  function GetUri(client: Client, env: Env, uri: Uri, completion: Completion): (r: Result<Operation, ClientError>)
    ensures r.Success? <==> completion.Completed? && IsSuccessStatus(completion.statusCode)
    ensures r.Success? ==> (IsSuccessStatus(r.value.statusCode) && r.value.uri == uri && r.value.body == completion.body
      && IsRequest(r.value, client, env, GET, GET_OPERATION_EXPIRATION_MICROS, true, uri.path))
  {
    Send(NewOperation(client, env, GET, uri, GET_OPERATION_EXPIRATION_MICROS, true, NoBody), completion)
  }

  function Delete(client: Client, env: Env, path: string, body: Body, completion: Completion): (r: Result<Operation, ClientError>)
    ensures r.Success? <==> |client.servers| > 0 && completion.Completed? && IsSuccessStatus(completion.statusCode)
    ensures r.Success? ==> (IsSuccessStatus(r.value.statusCode)
      && IsRequest(r.value, client, env, DELETE, DELETE_OPERATION_EXPIRATION_MICROS, true, path))
  {
    var uri :- GetServiceUri(client, env.pick(0), path);
    Send(NewOperation(client, env, DELETE, uri, DELETE_OPERATION_EXPIRATION_MICROS, true, body), completion)
  }

  function Patch(client: Client, env: Env, path: string, body: Body, completion: Completion): (r: Result<Operation, ClientError>)
    ensures r.Success? <==> |client.servers| > 0 && completion.Completed? && IsSuccessStatus(completion.statusCode)
    ensures r.Success? ==> (IsSuccessStatus(r.value.statusCode)
      && IsRequest(r.value, client, env, PATCH, PATCH_OPERATION_EXPIRATION_MICROS, true, path))
  {
    var uri :- GetServiceUri(client, env.pick(0), path);
    Send(NewOperation(client, env, PATCH, uri, PATCH_OPERATION_EXPIRATION_MICROS, true, body), completion)
  }

  /** A direct query posted to the local query-task factory of every node in the default group. */
  function PostToBroadcastQueryService(client: Client, env: Env, spec: QuerySpec, completion: Completion): (r: Result<Operation, ClientError>)
    ensures r.Success? <==> |client.servers| > 0 && completion.Completed? && IsSuccessStatus(completion.statusCode)
    ensures r.Success? ==> (IsSuccessStatus(r.value.statusCode) && r.value.body == completion.body
      && IsRequest(r.value, client, env, POST, QUERY_OPERATION_EXPIRATION_MICROS, false, CORE_LOCAL_QUERY_TASKS)
      && r.value.uri.broadcastSelector == Some(DEFAULT_NODE_SELECTOR))
  {
    var local :- GetServiceUri(client, env.pick(0), CORE_LOCAL_QUERY_TASKS);
    var uri := local.(broadcastSelector := Some(DEFAULT_NODE_SELECTOR));
    Send(NewOperation(client, env, POST, uri, QUERY_OPERATION_EXPIRATION_MICROS, false, QueryTaskRequest(spec, true)), completion)
  }

  /** A query task posted to the query-task factory, direct or not. */
  function Query(client: Client, env: Env, spec: QuerySpec, isDirect: bool, completion: Completion): (r: Result<Operation, ClientError>)
    ensures r.Success? <==> |client.servers| > 0 && completion.Completed? && IsSuccessStatus(completion.statusCode)
    ensures r.Success? ==> (IsSuccessStatus(r.value.statusCode) && r.value.body == completion.body
      && IsRequest(r.value, client, env, POST, QUERY_OPERATION_EXPIRATION_MICROS, false, CORE_QUERY_TASKS)
      && r.value.uri.broadcastSelector.None?)
  {
    var uri :- GetServiceUri(client, env.pick(0), CORE_QUERY_TASKS);
    Send(NewOperation(client, env, POST, uri, QUERY_OPERATION_EXPIRATION_MICROS, false, QueryTaskRequest(spec, isDirect)), completion)
  }

  // ---------------------------------------------------------------------------
  // Batched GET

  /** Java's `/` on a positive divisor: truncation toward zero. */
  function JavaDiv(a: int, b: int): (q: int)
    requires b > 0
    ensures a >= 0 ==> 0 <= q && 0 <= a - q * b < b
    ensures a < 0 ==> q <= 0 && -b < a - q * b <= 0
  {
    if a >= 0 then a / b
    else
      var p := (-a) / b;
      assert -a == p * b + (-a) % b;
      -p
  }

  /** `1 + (n - 1) / batchSize`, as the client computes the number of batches. */
  function BatchCount(n: nat, batchSize: int): int
    requires batchSize > 0
  {
    1 + JavaDiv(n - 1, batchSize)
  }

  /**
   * For a non-empty collection the batch count is the ceiling of n / batchSize,
   * so at least one. An empty collection (which the batched GET rejects first)
   * gives one batch, or none when the batch size is one.
   */
  lemma BatchCountIsCeiling(n: nat, batchSize: int)
    requires batchSize > 0
    ensures n > 0 ==> BatchCount(n, batchSize) >= 1
    ensures n > 0 ==> (BatchCount(n, batchSize) - 1) * batchSize < n <= BatchCount(n, batchSize) * batchSize
    ensures n == 0 ==> BatchCount(n, batchSize) == (if batchSize == 1 then 0 else 1)
  {
    if n > 0 {
      var q := (n - 1) / batchSize;
      var m := (n - 1) % batchSize;
      assert n - 1 == q * batchSize + m && 0 <= m < batchSize;
      assert BatchCount(n, batchSize) == q + 1;
      assert (q + 1) * batchSize == q * batchSize + batchSize;
    } else if batchSize > 1 {
      assert 1 / batchSize == 0;
    }
  }

  function CompleteAll(requested: seq<Operation>, responseTo: int -> Response): (completed: seq<Operation>)
    ensures |completed| == |requested|
    ensures forall i :: 0 <= i < |requested| ==>
      completed[i] == Complete(requested[i], responseTo(requested[i].id).statusCode, responseTo(requested[i].id).body)
  {
    seq(|requested|, i requires 0 <= i < |requested| =>
      Complete(requested[i], responseTo(requested[i].id).statusCode, responseTo(requested[i].id).body))
  }

  /**
   * Sends a batch of operations, waits `BatchCount * 90 s` for all of them,
   * classifies every completed one, and maps each operation's source link to it.
   */
  method SendBatch(requested: seq<Operation>, sourceLinks: map<int, string>, batchSize: int, join: int -> JoinOutcome)
    returns (r: Result<map<string, Operation>, ClientError>)
    requires batchSize > 0
    requires forall i :: 0 <= i < |requested| ==> requested[i].id in sourceLinks
    ensures var outcome := join(BatchCount(|requested|, batchSize) * DEFAULT_OPERATION_LATCH_TIMEOUT_MICROS);
      && (outcome.JoinTimedOut? ==> r == Failure(Timeout(outcome.message)))
      && (outcome.JoinInterrupted? ==> r == Failure(Interrupted))
      && (r.Success? <==> (outcome.JoinCompleted? &&
            forall i :: 0 <= i < |requested| ==> IsSuccessStatus(outcome.responseTo(requested[i].id).statusCode)))
      && (outcome.JoinCompleted? && r.Failure? ==> exists i :: (0 <= i < |requested|
            && Fail(r.error) == ClassifyResponse(outcome.responseTo(requested[i].id))
            && forall j :: 0 <= j < i ==> IsSuccessStatus(outcome.responseTo(requested[j].id).statusCode)))
      && (r.Success? ==> forall link :: link in r.value <==>
            exists i :: 0 <= i < |requested| && sourceLinks[requested[i].id] == link)
      && (r.Success? ==> forall link :: link in r.value ==>
            exists i :: 0 <= i < |requested| && sourceLinks[requested[i].id] == link &&
              r.value[link] == Complete(requested[i], outcome.responseTo(requested[i].id).statusCode,
                                        outcome.responseTo(requested[i].id).body))
  {
    var wait := BatchCount(|requested|, batchSize) * DEFAULT_OPERATION_LATCH_TIMEOUT_MICROS;
    var outcome := join(wait);
    match outcome {
      case JoinTimedOut(message) =>
        return Failure(Timeout(message));
      case JoinInterrupted =>
        return Failure(Interrupted);
      case JoinCompleted(responseTo) =>
        var completed := CompleteAll(requested, responseTo);
        var check := HandleOperationResults(completed);
        if check.Fail? {
          return Failure(check.error);
        }
        var result: map<string, Operation> := map[];
        var k := 0;
        while k < |completed|
          invariant 0 <= k <= |completed|
          invariant forall link :: link in result <==> exists i :: 0 <= i < k && sourceLinks[requested[i].id] == link
          invariant forall link :: link in result ==>
            exists i :: 0 <= i < k && sourceLinks[requested[i].id] == link && result[link] == completed[i]
        {
          result := result[sourceLinks[completed[k].id] := completed[k]];
          k := k + 1;
        }
        return Success(result);
    }
  }

  /** The reply a completed join holds for the `i`-th operation of a batch whose ids start at `firstId`. */
  function NthResponse(outcome: JoinOutcome, firstId: int, i: int): Response
    requires outcome.JoinCompleted?
  {
    outcome.responseTo(firstId + i)
  }

  /**
   * GETs every link in batches of `batchSize`. Each GET's deadline is scaled by
   * the batch count; the result maps every link to its completed GET.
   */
  method BatchGet(client: Client, env: Env, links: seq<string>, batchSize: int, join: int -> JoinOutcome)
    returns (r: Result<map<string, Operation>, ClientError>)
    ensures |links| == 0 ==> r == Failure(IllegalArgument(EMPTY_LINKS_MESSAGE))
    ensures |links| > 0 && batchSize <= 0 ==> r == Failure(IllegalArgument(BATCH_SIZE_MESSAGE))
    ensures |links| > 0 && batchSize > 0 && |client.servers| == 0 ==> r == Failure(NoServerAvailable)
    ensures |links| > 0 && batchSize > 0 && |client.servers| > 0 ==>
      var outcome := join(BatchCount(|links|, batchSize) * DEFAULT_OPERATION_LATCH_TIMEOUT_MICROS);
      && (outcome.JoinTimedOut? ==> r == Failure(Timeout(outcome.message)))
      && (outcome.JoinInterrupted? ==> r == Failure(Interrupted))
      && (r.Success? <==> (outcome.JoinCompleted? &&
            forall i :: 0 <= i < |links| ==> IsSuccessStatus(NthResponse(outcome, env.nextOperationId, i).statusCode)))
      && (outcome.JoinCompleted? && r.Failure? ==> exists i :: (0 <= i < |links|
            && Fail(r.error) == ClassifyResponse(NthResponse(outcome, env.nextOperationId, i))
            && forall j :: 0 <= j < i ==> IsSuccessStatus(NthResponse(outcome, env.nextOperationId, j).statusCode)))
      && (r.Success? ==> forall link :: link in r.value ==> exists i :: (0 <= i < |links| && links[i] == link
            && r.value[link].statusCode == NthResponse(outcome, env.nextOperationId, i).statusCode
            && r.value[link].body == NthResponse(outcome, env.nextOperationId, i).body))
    ensures r.Success? ==> batchSize > 0 && forall link :: link in r.value <==> link in links
    ensures r.Success? ==> forall link :: link in r.value ==>
      IsSuccessStatus(r.value[link].statusCode) &&
      IsRequest(r.value[link], client, env, GET, BatchCount(|links|, batchSize) * GET_OPERATION_EXPIRATION_MICROS, true, link)
  {
    if |links| == 0 {
      return Failure(IllegalArgument(EMPTY_LINKS_MESSAGE));
    }
    if batchSize <= 0 {
      return Failure(IllegalArgument(BATCH_SIZE_MESSAGE));
    }
    var window := BatchCount(|links|, batchSize) * GET_OPERATION_EXPIRATION_MICROS;
    var requested: seq<Operation> := [];
    var sourceLinks: map<int, string> := map[];
    var k := 0;
    while k < |links|
      invariant 0 <= k <= |links| && |requested| == k
      invariant k > 0 ==> |client.servers| > 0
      invariant forall i :: 0 <= i < k ==> requested[i].id == env.nextOperationId + i
      invariant forall i :: 0 <= i < k ==> requested[i].id in sourceLinks && sourceLinks[requested[i].id] == links[i]
      invariant forall i :: 0 <= i < k ==> IsRequest(requested[i], client, env, GET, window, true, links[i])
    {
      var uri :- GetServiceUri(client, env.pick(k), links[k]);
      var op := NewOperation(client, env.(nextOperationId := env.nextOperationId + k), GET, uri, window, true, NoBody);
      requested := requested + [op];
      sourceLinks := sourceLinks[op.id := links[k]];
      k := k + 1;
    }
    r := SendBatch(requested, sourceLinks, batchSize, join);
    ghost var outcome := join(BatchCount(|links|, batchSize) * DEFAULT_OPERATION_LATCH_TIMEOUT_MICROS);
    if outcome.JoinCompleted? {
      assert forall i :: 0 <= i < |links| ==> outcome.responseTo(requested[i].id) == NthResponse(outcome, env.nextOperationId, i);
    }
    if r.Success? {
      forall link | link in r.value
        ensures link in links
      {
        var i :| 0 <= i < |requested| && sourceLinks[requested[i].id] == link;
        assert links[i] == link;
      }
      forall link | link in links
        ensures link in r.value
      {
        var i :| 0 <= i < |links| && links[i] == link;
        assert sourceLinks[requested[i].id] == link;
      }
    }
  }

  // ---------------------------------------------------------------------------
  // Broadcast queries

  predicate NoDuplicates(s: seq<string>) {
    forall i, j :: 0 <= i < j < |s| ==> s[i] != s[j]
  }

  /** The distinct elements of `s`, each kept at its last occurrence. */
  function Dedup(s: seq<string>): (r: seq<string>)
    ensures forall x :: x in r <==> x in s
    ensures NoDuplicates(r)
  {
    if |s| == 0 then []
    else if s[0] in s[1..] then Dedup(s[1..])
    else [s[0]] + Dedup(s[1..])
  }

  /** Every node's document links, in node order. */
  function AllLinks(nodeResults: seq<QueryResult>): (r: seq<string>)
    ensures forall x :: x in r <==> exists i :: 0 <= i < |nodeResults| && x in nodeResults[i].documentLinks
  {
    if |nodeResults| == 0 then []
    else
      var rest := AllLinks(nodeResults[1..]);
      assert forall i :: 1 <= i < |nodeResults| ==> nodeResults[i] == nodeResults[1..][i - 1];
      nodeResults[0].documentLinks + rest
  }

  /** Every node's expanded documents, keyed by link; a later node's copy wins. */
  function AllDocuments(nodeResults: seq<QueryResult>): (r: map<string, Document>)
    ensures forall link :: link in r <==> exists i :: 0 <= i < |nodeResults| && link in nodeResults[i].documents
    ensures forall link :: link in r ==> exists i :: 0 <= i < |nodeResults| && link in nodeResults[i].documents
                                                     && r[link] == nodeResults[i].documents[link]
  {
    if |nodeResults| == 0 then map[]
    else
      var rest := AllDocuments(nodeResults[1..]);
      assert forall i :: 1 <= i < |nodeResults| ==> nodeResults[i] == nodeResults[1..][i - 1];
      nodeResults[0].documents + rest
  }

  /** The deduplicated union of the links every node returned for a broadcast query. */
  function BroadcastLinks(body: Body): (r: seq<string>)
    ensures NoDuplicates(r)
    ensures body.BroadcastQueryResponse? ==> forall x :: x in r <==>
      exists i :: 0 <= i < |body.nodeResults| && x in body.nodeResults[i].documentLinks
    ensures !body.BroadcastQueryResponse? ==> r == []
  {
    if body.BroadcastQueryResponse? then Dedup(AllLinks(body.nodeResults)) else []
  }

  /** The spec for documents of one kind matching every term, with no options and no limit. */
  function QuerySpecFor(documentKind: string, terms: map<string, string>): (spec: QuerySpec)
    ensures spec.documentKind == documentKind && spec.terms == terms
    ensures spec.options == {} && spec.resultLimit.None?
  {
    QuerySpec(documentKind, terms, {}, None)
  }

  /** Broadcast query for expanded documents of one kind; `documentKind` None is a null class. */
  function QueryDocuments(client: Client, env: Env, documentKind: Option<string>, terms: map<string, string>, completion: Completion)
    : (r: Result<map<string, Document>, ClientError>)
    ensures documentKind.None? ==> r == Failure(NullReference(NULL_DOCUMENT_TYPE_MESSAGE))
    ensures documentKind.Some? ==>
      (r.Success? <==> |client.servers| > 0 && completion.Completed? && IsSuccessStatus(completion.statusCode))
    ensures documentKind.Some? ==>
      (r.Success? <==> PostToBroadcastQueryService(client, env, QuerySpec(documentKind.value, terms, {EXPAND_CONTENT}, None), completion).Success?)
    ensures r.Success? && completion.body.BroadcastQueryResponse? ==> r.value == AllDocuments(completion.body.nodeResults)
    ensures r.Success? && completion.body.BroadcastQueryResponse? ==>
      forall link :: link in r.value <==>
        exists i :: 0 <= i < |completion.body.nodeResults| && link in completion.body.nodeResults[i].documents
    ensures r.Success? && !completion.body.BroadcastQueryResponse? ==> r.value == map[]
  {
    if documentKind.None? then Failure(NullReference(NULL_DOCUMENT_TYPE_MESSAGE))
    else
      var spec := QuerySpecFor(documentKind.value, terms).(options := {EXPAND_CONTENT});
      var op :- PostToBroadcastQueryService(client, env, spec, completion);
      if op.body.BroadcastQueryResponse? then Success(AllDocuments(op.body.nodeResults)) else Success(map[])
  }

  /** Broadcast query for the links of documents of one kind, each link once. */
  function QueryDocumentsForLinks(client: Client, env: Env, documentKind: Option<string>, terms: map<string, string>, completion: Completion)
    : (r: Result<seq<string>, ClientError>)
    ensures documentKind.None? ==> r == Failure(NullReference(NULL_DOCUMENT_TYPE_MESSAGE))
    ensures documentKind.Some? ==>
      (r.Success? <==> |client.servers| > 0 && completion.Completed? && IsSuccessStatus(completion.statusCode))
    ensures r.Success? ==> NoDuplicates(r.value)
    ensures r.Success? && completion.body.BroadcastQueryResponse? ==>
      forall link :: link in r.value <==>
        exists i :: 0 <= i < |completion.body.nodeResults| && link in completion.body.nodeResults[i].documentLinks
  {
    if documentKind.None? then Failure(NullReference(NULL_DOCUMENT_TYPE_MESSAGE))
    else
      var op :- PostToBroadcastQueryService(client, env, QuerySpecFor(documentKind.value, terms), completion);
      var links := BroadcastLinks(op.body);
      if |links| <= 0 then Success([]) else Success(links)
  }

  // ---------------------------------------------------------------------------
  // Paged queries

  /** The spec of a paged query: always broadcast, expanded on request, limited to the page size. */
  function BuildPagedQuerySpec(documentKind: string, terms: map<string, string>, pageSize: Option<int>, expandContent: bool)
    : (spec: QuerySpec)
    ensures BROADCAST in spec.options
    ensures EXPAND_CONTENT in spec.options <==> expandContent
    ensures spec.options <= {BROADCAST, EXPAND_CONTENT}
    ensures spec.resultLimit == pageSize
    ensures spec.documentKind == documentKind && spec.terms == terms
  {
    var options := if expandContent then {BROADCAST, EXPAND_CONTENT} else {BROADCAST};
    QuerySpecFor(documentKind, terms).(options := options, resultLimit := pageSize)
  }

  /** Fetches one page of results through its page link. */
  function QueryDocumentPage(client: Client, env: Env, pageLink: Option<string>, completion: Completion)
    : (r: Result<Option<QueryResult>, ClientError>)
    ensures pageLink.None? ==> r == Failure(NullReference(NULL_PAGE_LINK_MESSAGE))
    ensures pageLink == Some("") ==> r == Failure(IllegalArgument(EMPTY_PAGE_LINK_MESSAGE))
    ensures pageLink.Some? && pageLink.value != "" ==>
      (r.Success? <==> |client.servers| > 0 && completion.Completed? && IsSuccessStatus(completion.statusCode))
    ensures r.Success? && completion.body.QueryTaskState? ==> r.value == Some(completion.body.results)
  {
    if pageLink.None? then Failure(NullReference(NULL_PAGE_LINK_MESSAGE))
    else if pageLink.value == "" then Failure(IllegalArgument(EMPTY_PAGE_LINK_MESSAGE))
    else
      var op :- Get(client, env, pageLink.value, completion);
      Success(if op.body.QueryTaskState? then Some(op.body.results) else None)
  }

  /** The page link to follow once the query task finished, if the query was paged and has one. */
  function FirstPageLink(pageSize: Option<int>, results: QueryResult): (link: Option<string>)
    ensures link.Some? <==> pageSize.Some? && results.nextPageLink.Some?
    ensures link.Some? ==> link == results.nextPageLink
  {
    if pageSize.Some? && results.nextPageLink.Some? then results.nextPageLink else None
  }

  // ---------------------------------------------------------------------------
  // Waiting for a query task

  /** The stage of a task document, when the body is one. */
  function StageOf(body: Body): Option<TaskStage> {
    if body.QueryTaskState? then Some(body.stage) else None
  }

  predicate HasFinalStage(op: Operation) {
    StageOf(op.body).Some? && IsFinalStage(StageOf(op.body).value)
  }

  /** The URI of the query-task document a non-direct query created, on the host that answered. */
  function QueryTaskUri(posted: Operation): (r: Option<Uri>)
    ensures r.Some? <==> posted.body.QueryTaskState?
    ensures r.Some? ==> r.value.host == posted.uri.host && r.value.port == posted.uri.port && r.value.path == posted.body.selfLink
  {
    if posted.body.QueryTaskState? then Some(posted.uri.(path := posted.body.selfLink, broadcastSelector := None)) else None
  }

  /** Clock readings of one poll: when its GET was built, and when the loop condition read the clock after the sleep. */
  datatype Tick = Tick(sentAt: int, checkedAt: int)

  /** The clock never runs backwards, and each poll sleeps the check interval before the condition is read. */
  ghost predicate ClockAdvances(ticks: nat -> Tick) {
    forall i: nat :: ticks(i).sentAt + SERVICE_DOCUMENT_STATUS_CHECK_INTERVAL_MICROS <= ticks(i).checkedAt <= ticks(i + 1).sentAt
  }

  function PollEnv(env: Env, ticks: nat -> Tick, i: nat): Env {
    env.(nowMicros := ticks(i).sentAt, nextOperationId := env.nextOperationId + i)
  }

  /** The polling budget that remains before poll `i`: it shrinks by at least the check interval per poll. */
  function PollBudget(ticks: nat -> Tick, deadline: int, i: nat): nat {
    if ticks(i).sentAt <= deadline then deadline - ticks(i).sentAt else 0
  }

  /**
   * Polling with a fixed deadline: poll `i` GETs the task; a failed GET is
   * rethrown, a terminal stage is returned, and polling stops with a timeout
   * once the clock read after the sleep is past the deadline.
   */
  function PollUntil(client: Client, env: Env, uri: Uri, ticks: nat -> Tick, responses: nat -> Completion, deadline: int, i: nat)
    : (r: Result<Operation, ClientError>)
    requires ClockAdvances(ticks)
    ensures r.Success? ==> HasFinalStage(r.value) && IsSuccessStatus(r.value.statusCode)
    ensures r.Success? ==> r.value.action == GET && r.value.uri == uri
    ensures r.Failure? && r.error == PollTimeout(deadline) ==>
      exists k: nat :: i <= k && ticks(k).checkedAt > deadline
    ensures var first := GetUri(client, PollEnv(env, ticks, i), uri, responses(i));
      && (first.Failure? ==> r == Failure(first.error))
      && (first.Success? && HasFinalStage(first.value) ==> r == first)
    ensures r.Success? ==> exists k: nat :: (i <= k && r == GetUri(client, PollEnv(env, ticks, k), uri, responses(k))
      && RunningWithinDeadline(ticks, responses, deadline, i, k))
    ensures r.Failure? && !r.error.PollTimeout? ==> exists k: nat :: (i <= k
      && r == GetUri(client, PollEnv(env, ticks, k), uri, responses(k))
      && RunningWithinDeadline(ticks, responses, deadline, i, k))
    ensures r.Failure? && r.error.PollTimeout? ==> r.error == PollTimeout(deadline) && exists k: nat :: (i <= k
      && StillRunning(responses(k)) && ticks(k).checkedAt > deadline
      && RunningWithinDeadline(ticks, responses, deadline, i, k))
    decreases PollBudget(ticks, deadline, i)
  {
    var op :- GetUri(client, PollEnv(env, ticks, i), uri, responses(i));
    if HasFinalStage(op) then Success(op)
    else if ticks(i).checkedAt <= deadline then
      assert ticks(i).sentAt + SERVICE_DOCUMENT_STATUS_CHECK_INTERVAL_MICROS <= ticks(i).checkedAt <= ticks(i + 1).sentAt;
      assert StillRunning(responses(i));
      var rest := PollUntil(client, env, uri, ticks, responses, deadline, i + 1);
      assert forall k: nat :: i + 1 <= k && RunningWithinDeadline(ticks, responses, deadline, i + 1, k) ==>
        RunningWithinDeadline(ticks, responses, deadline, i, k);
      rest
    else
      assert StillRunning(responses(i)) && RunningWithinDeadline(ticks, responses, deadline, i, i);
      Failure(PollTimeout(deadline))
  }

  /** Every poll from `i` up to, not including, `k` saw a running task with the clock still within the deadline. */
  ghost predicate RunningWithinDeadline(ticks: nat -> Tick, responses: nat -> Completion, deadline: int, i: nat, k: nat) {
    forall j: nat :: i <= j < k ==> StillRunning(responses(j)) && ticks(j).checkedAt <= deadline
  }

  /**
   * Waits for the query task at `uri` to reach FINISHED, FAILED or CANCELLED.
   * The deadline is the expiration of the first GET and stays fixed.
   */
  method WaitForTaskToFinish(client: Client, env: Env, uri: Uri, ticks: nat -> Tick, responses: nat -> Completion)
    returns (r: Result<Operation, ClientError>)
    requires ClockAdvances(ticks)
    ensures r == PollUntil(client, env, uri, ticks, responses, ticks(0).sentAt + GET_OPERATION_EXPIRATION_MICROS, 0)
    ensures r.Success? ==> HasFinalStage(r.value) && IsSuccessStatus(r.value.statusCode)
  {
    var deadline := ticks(0).sentAt + GET_OPERATION_EXPIRATION_MICROS;
    var i: nat := 0;
    while true
      invariant PollUntil(client, env, uri, ticks, responses, deadline, i) == PollUntil(client, env, uri, ticks, responses, deadline, 0)
      decreases PollBudget(ticks, deadline, i)
    {
      var polled := GetUri(client, PollEnv(env, ticks, i), uri, responses(i));
      if polled.Failure? {
        return Failure(polled.error);
      }
      if HasFinalStage(polled.value) {
        return polled;
      }
      if ticks(i).checkedAt > deadline {
        return Failure(PollTimeout(deadline));
      }
      assert ticks(i).sentAt + SERVICE_DOCUMENT_STATUS_CHECK_INTERVAL_MICROS <= ticks(i).checkedAt <= ticks(i + 1).sentAt;
      i := i + 1;
    }
  }

  /** A poll that answers at once with a task that is still running. */
  predicate StillRunning(completion: Completion) {
    completion.Completed? && IsSuccessStatus(completion.statusCode) && !(StageOf(completion.body).Some? && IsFinalStage(StageOf(completion.body).value))
  }

  /** With a fixed deadline, a task that never reaches a terminal stage ends in a timeout. */
  lemma {:induction false} PollUntilTimesOutOnRunningTask(client: Client, env: Env, uri: Uri, ticks: nat -> Tick,
                                                          responses: nat -> Completion, deadline: int, i: nat)
    requires ClockAdvances(ticks)
    requires forall k: nat :: StillRunning(responses(k))
    ensures PollUntil(client, env, uri, ticks, responses, deadline, i) == Failure(PollTimeout(deadline))
    decreases PollBudget(ticks, deadline, i)
  {
    assert StillRunning(responses(i));
    if ticks(i).checkedAt <= deadline {
      assert ticks(i).sentAt + SERVICE_DOCUMENT_STATUS_CHECK_INTERVAL_MICROS <= ticks(i).checkedAt <= ticks(i + 1).sentAt;
      PollUntilTimesOutOnRunningTask(client, env, uri, ticks, responses, deadline, i + 1);
    }
  }

  // The loop as written: the condition compares the clock with the expiration
  // of the latest GET, which moves forward with every poll.

  datatype PollState = Stopped(result: Result<Operation, ClientError>) | StillPolling

  /** The first `fuel` rounds of the loop as written, from poll `i`. */
  function PollAsWritten(client: Client, env: Env, uri: Uri, ticks: nat -> Tick, responses: nat -> Completion, i: nat, fuel: nat)
    : (s: PollState)
    ensures s.Stopped? && s.result.Success? ==> HasFinalStage(s.result.value)
    decreases fuel
  {
    if fuel == 0 then StillPolling
    else match GetUri(client, PollEnv(env, ticks, i), uri, responses(i))
      case Failure(e) => Stopped(Failure(e))
      case Success(op) =>
        if HasFinalStage(op) then Stopped(Success(op))
        else if ticks(i).checkedAt <= op.expirationMicros then PollAsWritten(client, env, uri, ticks, responses, i + 1, fuel - 1)
        else Stopped(Failure(PollTimeout(op.expirationMicros)))
  }

  /**
   * As written, the loop never times out while the server keeps answering:
   * every GET returns within its 90 s latch wait, and after the 100 ms sleep the
   * clock is still inside that GET's own 120 s expiration.
   */
  lemma {:induction false} AsWrittenNeverTimesOut(client: Client, env: Env, uri: Uri, ticks: nat -> Tick,
                                                  responses: nat -> Completion, i: nat, fuel: nat)
    requires forall k: nat ::
      ticks(k).checkedAt <= ticks(k).sentAt + DEFAULT_OPERATION_LATCH_TIMEOUT_MICROS + SERVICE_DOCUMENT_STATUS_CHECK_INTERVAL_MICROS
    requires forall k: nat :: StillRunning(responses(k))
    ensures PollAsWritten(client, env, uri, ticks, responses, i, fuel) == StillPolling
    decreases fuel
  {
    if fuel > 0 {
      assert StillRunning(responses(i));
      assert ticks(i).checkedAt <=
        ticks(i).sentAt + DEFAULT_OPERATION_LATCH_TIMEOUT_MICROS + SERVICE_DOCUMENT_STATUS_CHECK_INTERVAL_MICROS;
      AsWrittenNeverTimesOut(client, env, uri, ticks, responses, i + 1, fuel - 1);
    }
  }

  // ---------------------------------------------------------------------------
  // The paged query as a whole

  /** What the paged query returns once its query task finished: the first page, or the results themselves. */
  function AfterQueryFinished(client: Client, env: Env, pageSize: Option<int>, finished: Operation, pageCompletion: Completion)
    : (r: Result<Option<QueryResult>, ClientError>)
    requires HasFinalStage(finished)
    ensures FirstPageLink(pageSize, finished.body.results).None? ==> r == Success(Some(finished.body.results))
    ensures FirstPageLink(pageSize, finished.body.results).Some? ==>
      r == QueryDocumentPage(client, env, finished.body.results.nextPageLink, pageCompletion)
  {
    var results := finished.body.results;
    var next := FirstPageLink(pageSize, results);
    if next.Some? then QueryDocumentPage(client, env, next, pageCompletion) else Success(Some(results))
  }

  /**
   * Paged query: a non-direct broadcast query task is posted, waited for, and
   * its first page fetched when a page size was given.
   */
  method QueryDocumentsPaged(client: Client, env: Env, documentKind: Option<string>, terms: map<string, string>,
                             pageSize: Option<int>, expandContent: bool, queryCompletion: Completion,
                             ticks: nat -> Tick, responses: nat -> Completion, pageEnv: Env, pageCompletion: Completion)
    returns (r: Result<Option<QueryResult>, ClientError>)
    requires ClockAdvances(ticks)
    ensures documentKind.None? ==> r == Failure(NullReference(NULL_DOCUMENT_TYPE_MESSAGE))
    ensures documentKind.Some? && pageSize.Some? && pageSize.value < 1 ==> r == Failure(IllegalArgument(PAGE_SIZE_MESSAGE))
    ensures documentKind.Some? && (pageSize.None? || pageSize.value >= 1) && !(|client.servers| > 0 && queryCompletion.Completed? && IsSuccessStatus(queryCompletion.statusCode)) ==>
      r.Failure? && r.error == Query(client, env, BuildPagedQuerySpec(documentKind.value, terms, pageSize, expandContent), false, queryCompletion).error
    ensures r.Success? ==> exists finished: Operation ::
      HasFinalStage(finished) && r == AfterQueryFinished(client, pageEnv, pageSize, finished, pageCompletion)
    ensures documentKind.Some? && (pageSize.None? || pageSize.value >= 1) ==>
      var posted := Query(client, env, BuildPagedQuerySpec(documentKind.value, terms, pageSize, expandContent), false, queryCompletion);
      && (posted.Failure? ==> r == Failure(posted.error))
      && (posted.Success? && QueryTaskUri(posted.value).None? ==> r == Failure(NullReference(NO_SELF_LINK_MESSAGE)))
      && (posted.Success? && QueryTaskUri(posted.value).Some? ==>
            var finished := PollUntil(client, env, QueryTaskUri(posted.value).value, ticks, responses,
                                      ticks(0).sentAt + GET_OPERATION_EXPIRATION_MICROS, 0);
            r == if finished.Failure? then Failure(finished.error)
                 else AfterQueryFinished(client, pageEnv, pageSize, finished.value, pageCompletion))
  {
    if documentKind.None? {
      return Failure(NullReference(NULL_DOCUMENT_TYPE_MESSAGE));
    }
    if pageSize.Some? && pageSize.value < 1 {
      return Failure(IllegalArgument(PAGE_SIZE_MESSAGE));
    }
    var spec := BuildPagedQuerySpec(documentKind.value, terms, pageSize, expandContent);
    var posted := Query(client, env, spec, false, queryCompletion);
    if posted.Failure? {
      return Failure(posted.error);
    }
    var taskUri := QueryTaskUri(posted.value);
    if taskUri.None? {
      return Failure(NullReference(NO_SELF_LINK_MESSAGE));
    }
    var finished := WaitForTaskToFinish(client, env, taskUri.value, ticks, responses);
    if finished.Failure? {
      return Failure(finished.error);
    }
    r := AfterQueryFinished(client, pageEnv, pageSize, finished.value, pageCompletion);
  }
}
