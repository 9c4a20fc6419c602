/**
 * The periodic trigger document that starts copy-state tasks between two
 * clusters. The trigger keeps its configuration, an execution state and two
 * counters. Patches merge counters by "max, negative resets to 0". A pulse
 * sent by the owner host on maintenance makes a RUNNING trigger query for
 * copy-state tasks and start a new one when none is running. Whether that
 * worked is counted by a self-patch.
 *
 * Owner selection, the broadcast query and the POST that starts a task are
 * asynchronous framework calls; their outcomes are parameters here.
 */
module CopyStateTrigger {
  import opened Wrappers
  import opened TaskStages

  datatype ExecutionState = RUNNING | STOPPED

  /** The trigger document; every field may be absent (null), as in a patch body. */
  datatype State = State(
    executionState: Option<ExecutionState>,
    sourceIp: Option<string>,
    sourcePort: Option<int>,
    sourceProtocol: Option<string>,
    destinationIp: Option<string>,
    destinationPort: Option<int>,
    destinationProtocol: Option<string>,
    factoryLink: Option<string>,
    sourceFactoryLink: Option<string>,
    taskStateFieldName: Option<string>,
    queryResultLimit: Option<int>,
    pulse: Option<bool>,
    triggersSuccess: Option<int>,
    triggersError: Option<int>,
    controlFlags: Option<int>)

  /** A document with every field null, as `new State()` makes it. */
  const EmptyState: State := State(None, None, None, None, None, None, None, None, None, None, None, None, None, None, None)

  // Declared defaults.
  const DEFAULT_PROTOCOL: string := "http"
  const DEFAULT_TASK_STATE_FIELD_NAME: string := "taskState.stage"
  const DEFAULT_QUERY_RESULT_LIMIT: int := 10
  const DEFAULT_COUNTER: int := 0
  const DEFAULT_CONTROL_FLAGS: int := 0

  datatype TriggerError =
    | NullField(field: string)
    | NullExecutionState
    | PatchWithoutEffect
    | NullCounter(field: string)
    | NegativeCounter(field: string)

  // ---------------------------------------------------------------------------
  // Start

  /** Fills each field that has a declared default and is absent; present fields are kept. */
  function InitializeDefaults(s: State): (r: State)
    ensures r.sourceProtocol == Some(s.sourceProtocol.GetOr(DEFAULT_PROTOCOL))
    ensures r.destinationProtocol == Some(s.destinationProtocol.GetOr(DEFAULT_PROTOCOL))
    ensures r.taskStateFieldName == Some(s.taskStateFieldName.GetOr(DEFAULT_TASK_STATE_FIELD_NAME))
    ensures r.queryResultLimit == Some(s.queryResultLimit.GetOr(DEFAULT_QUERY_RESULT_LIMIT))
    ensures r.triggersSuccess == Some(s.triggersSuccess.GetOr(DEFAULT_COUNTER))
    ensures r.triggersError == Some(s.triggersError.GetOr(DEFAULT_COUNTER))
    ensures r.controlFlags == Some(s.controlFlags.GetOr(DEFAULT_CONTROL_FLAGS))
    ensures r.executionState == s.executionState && r.pulse == s.pulse
    ensures r.sourceIp == s.sourceIp && r.sourcePort == s.sourcePort
    ensures r.destinationIp == s.destinationIp && r.destinationPort == s.destinationPort
    ensures r.factoryLink == s.factoryLink && r.sourceFactoryLink == s.sourceFactoryLink
  {
    s.(sourceProtocol := Some(s.sourceProtocol.GetOr(DEFAULT_PROTOCOL)),
       destinationProtocol := Some(s.destinationProtocol.GetOr(DEFAULT_PROTOCOL)),
       taskStateFieldName := Some(s.taskStateFieldName.GetOr(DEFAULT_TASK_STATE_FIELD_NAME)),
       queryResultLimit := Some(s.queryResultLimit.GetOr(DEFAULT_QUERY_RESULT_LIMIT)),
       triggersSuccess := Some(s.triggersSuccess.GetOr(DEFAULT_COUNTER)),
       triggersError := Some(s.triggersError.GetOr(DEFAULT_COUNTER)),
       controlFlags := Some(s.controlFlags.GetOr(DEFAULT_CONTROL_FLAGS)))
  }

  /** The document a start stores: RUNNING unless told otherwise, no pulse, defaults filled. */
  function StartState(body: State): (s: State)
    ensures s.executionState == Some(body.executionState.GetOr(RUNNING))
    ensures s.pulse.None?
    ensures s == InitializeDefaults(s)
    ensures s.sourceIp == body.sourceIp && s.sourcePort == body.sourcePort
    ensures s.destinationIp == body.destinationIp && s.destinationPort == body.destinationPort
    ensures s.factoryLink == body.factoryLink && s.sourceFactoryLink == body.sourceFactoryLink
    ensures body.triggersSuccess.Some? ==> s.triggersSuccess == body.triggersSuccess
    ensures body.triggersError.Some? ==> s.triggersError == body.triggersError
  {
    InitializeDefaults(body.(executionState := Some(body.executionState.GetOr(RUNNING)), pulse := None))
  }

  // ---------------------------------------------------------------------------
  // Validation

  /** What a stored trigger document must satisfy. */
  predicate ValidState(s: State) {
    && s.sourceIp.Some? && s.sourcePort.Some? && s.destinationIp.Some? && s.destinationPort.Some?
    && s.factoryLink.Some? && s.sourceFactoryLink.Some?
    && s.executionState.Some?
    && s.triggersSuccess.Some? && s.triggersSuccess.value >= 0
    && s.triggersError.Some? && s.triggersError.value >= 0
  }

  /** A counter must be present and non-negative. */
  function CheckCounter(value: Option<int>, field: string): (r: Outcome<TriggerError>)
    ensures r.Pass? <==> value.Some? && value.value >= 0
    ensures r.Fail? ==> r.error == (if value.None? then NullCounter(field) else NegativeCounter(field))
  {
    if value.None? then Fail(NullCounter(field))
    else if value.value < 0 then Fail(NegativeCounter(field))
    else Pass
  }

  /** The `@NotNull` configuration fields, in declaration order. */
  const REQUIRED_FIELDS: seq<string> :=
    ["sourceIp", "sourcePort", "destinationIp", "destinationPort", "factoryLink", "sourceFactoryLink"]

  /** Whether the named required field is null. */
  predicate IsNullField(s: State, field: string) {
    match field
    case "sourceIp" => s.sourceIp.None?
    case "sourcePort" => s.sourcePort.None?
    case "destinationIp" => s.destinationIp.None?
    case "destinationPort" => s.destinationPort.None?
    case "factoryLink" => s.factoryLink.None?
    case "sourceFactoryLink" => s.sourceFactoryLink.None?
    case _ => false
  }

  /** The required fields in declaration order, then the execution state, then both counters. */
  function ValidateState(s: State): (r: Outcome<TriggerError>)
    ensures r.Pass? <==> ValidState(s)
    ensures s.sourceIp.None? ==> r == Fail(NullField("sourceIp"))
    ensures (r.Fail? && r.error.NullField?) <==> exists k :: 0 <= k < |REQUIRED_FIELDS| && IsNullField(s, REQUIRED_FIELDS[k])
    ensures r.Fail? && r.error.NullField? ==> exists k :: (0 <= k < |REQUIRED_FIELDS| && r.error.field == REQUIRED_FIELDS[k]
      && IsNullField(s, REQUIRED_FIELDS[k]) && forall j :: 0 <= j < k ==> !IsNullField(s, REQUIRED_FIELDS[j]))
    ensures r == Fail(NullExecutionState) <==>
      (forall k :: 0 <= k < |REQUIRED_FIELDS| ==> !IsNullField(s, REQUIRED_FIELDS[k])) && s.executionState.None?
  {
    if s.sourceIp.None? then assert IsNullField(s, REQUIRED_FIELDS[0]); Fail(NullField("sourceIp"))
    else if s.sourcePort.None? then assert IsNullField(s, REQUIRED_FIELDS[1]); Fail(NullField("sourcePort"))
    else if s.destinationIp.None? then assert IsNullField(s, REQUIRED_FIELDS[2]); Fail(NullField("destinationIp"))
    else if s.destinationPort.None? then assert IsNullField(s, REQUIRED_FIELDS[3]); Fail(NullField("destinationPort"))
    else if s.factoryLink.None? then assert IsNullField(s, REQUIRED_FIELDS[4]); Fail(NullField("factoryLink"))
    else if s.sourceFactoryLink.None? then
      assert IsNullField(s, REQUIRED_FIELDS[5]); Fail(NullField("sourceFactoryLink"))
    else if s.executionState.None? then Fail(NullExecutionState)
    else if CheckCounter(s.triggersSuccess, "triggersSuccess").Fail? then CheckCounter(s.triggersSuccess, "triggersSuccess")
    else CheckCounter(s.triggersError, "triggersError")
  }

  /** A patch must carry a counter, a pulse or an execution state. */
  function ValidatePatch(patch: State): (r: Outcome<TriggerError>)
    ensures r.Fail? <==> patch.triggersSuccess.None? && patch.triggersError.None? && patch.pulse.None? && patch.executionState.None?
    ensures r.Fail? ==> r.error == PatchWithoutEffect
  {
    if patch.triggersSuccess.None? && patch.triggersError.None? && patch.pulse.None? then
      if patch.executionState.None? then Fail(PatchWithoutEffect) else Pass
    else Pass
  }

  // ---------------------------------------------------------------------------
  // Merge

  /** An absent value keeps the counter, a negative one resets it to 0, otherwise the larger value wins. */
  function UpdateLongWithMax(previous: int, value: Option<int>): (r: int)
    ensures value.None? ==> r == previous
    ensures value.Some? && value.value < 0 ==> r == 0
    ensures value.Some? && value.value >= 0 ==> r >= previous && r >= value.value && (r == previous || r == value.value)
  {
    if value.None? then previous
    else if value.value < 0 then 0
    else if previous >= value.value then previous else value.value
  }

  /** The document after a patch: only the execution state and the two counters can change. */
  function Merge(current: State, patch: State): (r: State)
    requires current.triggersSuccess.Some? && current.triggersError.Some?
    ensures r.(executionState := current.executionState, triggersSuccess := current.triggersSuccess,
               triggersError := current.triggersError) == current
    ensures patch.executionState.Some? ==> r.executionState == patch.executionState
    ensures patch.executionState.None? ==> r.executionState == current.executionState
    ensures r.triggersSuccess == Some(UpdateLongWithMax(current.triggersSuccess.value, patch.triggersSuccess))
    ensures r.triggersError == Some(UpdateLongWithMax(current.triggersError.value, patch.triggersError))
  {
    current.(
      executionState := if patch.executionState.Some? then patch.executionState else current.executionState,
      triggersSuccess := Some(UpdateLongWithMax(current.triggersSuccess.value, patch.triggersSuccess)),
      triggersError := Some(UpdateLongWithMax(current.triggersError.value, patch.triggersError)))
  }

  /** A valid document stays valid under every patch, so the check after the merge never rejects. */
  lemma MergeKeepsValid(current: State, patch: State)
    requires ValidState(current)
    ensures ValidState(Merge(current, patch))
    ensures ValidateState(Merge(current, patch)) == Pass
  {
    var r := Merge(current, patch);
    assert r.triggersSuccess.value >= 0 && r.triggersError.value >= 0;
  }

  /** Applying the same patch twice gives the same document as applying it once. */
  lemma MergeIdempotent(current: State, patch: State)
    requires current.triggersSuccess.Some? && current.triggersError.Some?
    ensures Merge(Merge(current, patch), patch) == Merge(current, patch)
  {
    var once := Merge(current, patch);
    assert once.triggersSuccess == Some(UpdateLongWithMax(current.triggersSuccess.value, patch.triggersSuccess));
  }

  /** A patch without negative counters never lowers a counter. */
  lemma MergeMonotone(current: State, patch: State)
    requires current.triggersSuccess.Some? && current.triggersError.Some?
    requires patch.triggersSuccess.Some? ==> patch.triggersSuccess.value >= 0
    requires patch.triggersError.Some? ==> patch.triggersError.value >= 0
    ensures Merge(current, patch).triggersSuccess.value >= current.triggersSuccess.value
    ensures Merge(current, patch).triggersError.value >= current.triggersError.value
  {
  }

  /** A counter after a run of patches carrying the given values. */
  function ReplayCounter(start: int, values: seq<Option<int>>): int
    decreases |values|
  {
    if |values| == 0 then start
    else ReplayCounter(UpdateLongWithMax(start, values[0]), values[1..])
  }

  /**
   * Over any run of patches without negative values a counter ends at the
   * largest value seen, the starting one included.
   */
  lemma {:induction false} ReplayCounterIsMax(start: int, values: seq<Option<int>>)
    requires forall i :: 0 <= i < |values| && values[i].Some? ==> values[i].value >= 0
    ensures ReplayCounter(start, values) >= start
    ensures forall i :: 0 <= i < |values| && values[i].Some? ==> ReplayCounter(start, values) >= values[i].value
    ensures ReplayCounter(start, values) == start ||
            exists i :: 0 <= i < |values| && values[i] == Some(ReplayCounter(start, values))
    decreases |values|
  {
    if |values| > 0 {
      var next := UpdateLongWithMax(start, values[0]);
      ReplayCounterIsMax(next, values[1..]);
      assert forall i :: 1 <= i < |values| ==> values[i] == values[1..][i - 1];
      var r := ReplayCounter(start, values);
      assert r == ReplayCounter(next, values[1..]);
      if r != start {
        if r == next {
          assert values[0] == Some(r);
        } else {
          var j :| 0 <= j < |values[1..]| && values[1..][j] == Some(r);
          assert values[j + 1] == Some(r);
        }
      }
    }
  }

  /** A negative value anywhere in the run resets the counter; what follows starts from 0. */
  lemma {:induction false} ReplayCounterResets(start: int, before: seq<Option<int>>, negative: int, after: seq<Option<int>>)
    requires negative < 0
    ensures ReplayCounter(start, before + [Some(negative)] + after) == ReplayCounter(0, after)
    decreases |before|
  {
    if |before| == 0 {
      assert before + [Some(negative)] + after == [Some(negative)] + after;
      assert ([Some(negative)] + after)[1..] == after;
    } else {
      var rest := before[1..] + [Some(negative)] + after;
      assert (before + [Some(negative)] + after)[1..] == rest;
      assert (before + [Some(negative)] + after)[0] == before[0];
      ReplayCounterResets(UpdateLongWithMax(start, before[0]), before[1..], negative, after);
    }
  }

  // ---------------------------------------------------------------------------
  // Self-patches and the pulse

  /** The self-patch that counts one more successful trigger. */
  function SuccessPatch(current: State): (p: State)
    requires current.triggersSuccess.Some?
  {
    EmptyState.(triggersSuccess := Some(current.triggersSuccess.value + 1))
  }

  /** The self-patch that counts one more failed trigger. */
  function ErrorPatch(current: State): (p: State)
    requires current.triggersError.Some?
  {
    EmptyState.(triggersError := Some(current.triggersError.value + 1))
  }

  /** The self-patch the owner host sends on maintenance. */
  const PulsePatch: State := EmptyState.(pulse := Some(true))

  /**
   * A success self-patch is accepted and raises the success counter by one,
   * and only by one even when it is delivered twice.
   */
  lemma SuccessPatchCountsOnce(current: State)
    requires ValidState(current)
    ensures ValidatePatch(SuccessPatch(current)) == Pass
    ensures Merge(current, SuccessPatch(current)) == current.(triggersSuccess := Some(current.triggersSuccess.value + 1))
    ensures Merge(Merge(current, SuccessPatch(current)), SuccessPatch(current)) == Merge(current, SuccessPatch(current))
  {
    MergeIdempotent(current, SuccessPatch(current));
  }

  /** The same for an error self-patch and the error counter. */
  lemma ErrorPatchCountsOnce(current: State)
    requires ValidState(current)
    ensures ValidatePatch(ErrorPatch(current)) == Pass
    ensures Merge(current, ErrorPatch(current)) == current.(triggersError := Some(current.triggersError.value + 1))
    ensures Merge(Merge(current, ErrorPatch(current)), ErrorPatch(current)) == Merge(current, ErrorPatch(current))
  {
    MergeIdempotent(current, ErrorPatch(current));
  }

  /** A pulse is accepted and leaves the stored document as it was. */
  lemma PulseLeavesStateUnchanged(current: State)
    requires ValidState(current)
    ensures ValidatePatch(PulsePatch) == Pass
    ensures Merge(current, PulsePatch) == current
  {
  }

  // ---------------------------------------------------------------------------
  // Starting a copy-state task

  /** What the trigger reads of one copy-state task found by its query. */
  datatype CopyStateInstance = CopyStateInstance(stage: TaskStage, lastDocumentUpdateTimeEpoc: int)

  /** Start document of a copy-state task. */
  datatype CopyStateStart = CopyStateStart(
    sourceIp: Option<string>,
    sourcePort: Option<int>,
    sourceProtocol: Option<string>,
    destinationIp: Option<string>,
    destinationPort: Option<int>,
    destinationProtocol: Option<string>,
    factoryLink: Option<string>,
    sourceFactoryLink: Option<string>,
    taskStateFieldName: Option<string>,
    queryResultLimit: Option<int>,
    queryDocumentsChangedSinceEpoc: int)

  predicate HasFinished(instances: seq<CopyStateInstance>) {
    exists i :: 0 <= i < |instances| && instances[i].stage == FINISHED
  }

  /** The newest update time over the FINISHED instances, or 0 when there is none. */
  function LatestFinishedUpdateTime(instances: seq<CopyStateInstance>): (t: int)
    ensures forall i :: 0 <= i < |instances| && instances[i].stage == FINISHED ==> instances[i].lastDocumentUpdateTimeEpoc <= t
    ensures HasFinished(instances) ==>
      exists i :: 0 <= i < |instances| && instances[i].stage == FINISHED && instances[i].lastDocumentUpdateTimeEpoc == t
    ensures !HasFinished(instances) ==> t == 0
  {
    if |instances| == 0 then 0
    else
      var rest := LatestFinishedUpdateTime(instances[1..]);
      assert forall i :: 1 <= i < |instances| ==> instances[i] == instances[1..][i - 1];
      assert HasFinished(instances[1..]) ==> HasFinished(instances);
      if instances[0].stage != FINISHED then
        assert HasFinished(instances) ==> HasFinished(instances[1..]);
        rest
      else if HasFinished(instances[1..]) && rest > instances[0].lastDocumentUpdateTimeEpoc then rest
      else instances[0].lastDocumentUpdateTimeEpoc
  }

  /** No instance is in CREATED or STARTED. */
  predicate NoneRunning(instances: seq<CopyStateInstance>) {
    forall i :: 0 <= i < |instances| ==> IsFinalStage(instances[i].stage)
  }

  /** The start document copies the trigger's ten configuration fields and takes the given watermark. */
  function BuildCopyStateStartState(current: State, latestUpdateTime: int): (start: CopyStateStart)
    ensures start.queryDocumentsChangedSinceEpoc == latestUpdateTime
    ensures start.sourceIp == current.sourceIp && start.sourcePort == current.sourcePort
    ensures start.sourceProtocol == current.sourceProtocol
    ensures start.destinationIp == current.destinationIp && start.destinationPort == current.destinationPort
    ensures start.destinationProtocol == current.destinationProtocol
    ensures start.factoryLink == current.factoryLink && start.sourceFactoryLink == current.sourceFactoryLink
    ensures start.taskStateFieldName == current.taskStateFieldName && start.queryResultLimit == current.queryResultLimit
  {
    CopyStateStart(current.sourceIp, current.sourcePort, current.sourceProtocol,
                   current.destinationIp, current.destinationPort, current.destinationProtocol,
                   current.factoryLink, current.sourceFactoryLink, current.taskStateFieldName,
                   current.queryResultLimit, latestUpdateTime)
  }

  // The broadcast query for the copy-state tasks of this trigger.

  const FIELD_NAME_KIND: string := "documentKind"
  const COPY_STATE_TASK_KIND: string := "com:vmware:photon:controller:deployer:dcp:task:CopyStateTaskService:State"

  /** A term's match value; a port is matched by its decimal text. */
  datatype TermValue = Text(text: string) | Number(number: int)

  datatype Term = Term(propertyName: string, matchValue: Option<TermValue>)

  function TextTerm(name: string, value: Option<string>): Term {
    Term(name, if value.Some? then Some(Text(value.value)) else None)
  }

  /** The eight configuration fields a copy-state task is matched on, in the order the query adds them. */
  const QUERY_FIELDS: seq<string> :=
    ["destinationIp", "destinationPort", "destinationProtocol", "sourceIp", "sourcePort", "sourceProtocol",
     "factoryLink", "sourceFactoryLink"]

  /** The value the trigger document has for a queried property; a port is matched as a number. */
  function TriggerField(current: State, name: string): Option<TermValue> {
    match name
    case "destinationIp" => if current.destinationIp.Some? then Some(Text(current.destinationIp.value)) else None
    case "destinationPort" => if current.destinationPort.Some? then Some(Number(current.destinationPort.value)) else None
    case "destinationProtocol" =>
      if current.destinationProtocol.Some? then Some(Text(current.destinationProtocol.value)) else None
    case "sourceIp" => if current.sourceIp.Some? then Some(Text(current.sourceIp.value)) else None
    case "sourcePort" => if current.sourcePort.Some? then Some(Number(current.sourcePort.value)) else None
    case "sourceProtocol" => if current.sourceProtocol.Some? then Some(Text(current.sourceProtocol.value)) else None
    case "factoryLink" => if current.factoryLink.Some? then Some(Text(current.factoryLink.value)) else None
    case "sourceFactoryLink" => if current.sourceFactoryLink.Some? then Some(Text(current.sourceFactoryLink.value)) else None
    case _ => None
  }

  /** The kind clause, then one clause per identifying field of the trigger, each matching the trigger's value. */
  function QueryTerms(current: State): (terms: seq<Term>)
    requires current.sourcePort.Some? && current.destinationPort.Some?
    ensures |terms| == 1 + |QUERY_FIELDS|
    ensures terms[0] == Term(FIELD_NAME_KIND, Some(Text(COPY_STATE_TASK_KIND)))
    ensures forall k :: 1 <= k < |terms| ==>
      terms[k].propertyName == QUERY_FIELDS[k - 1] && terms[k].matchValue == TriggerField(current, QUERY_FIELDS[k - 1])
  {
    [Term(FIELD_NAME_KIND, Some(Text(COPY_STATE_TASK_KIND))),
     TextTerm("destinationIp", current.destinationIp),
     Term("destinationPort", Some(Number(current.destinationPort.value))),
     TextTerm("destinationProtocol", current.destinationProtocol),
     TextTerm("sourceIp", current.sourceIp),
     Term("sourcePort", Some(Number(current.sourcePort.value))),
     TextTerm("sourceProtocol", current.sourceProtocol),
     TextTerm("factoryLink", current.factoryLink),
     TextTerm("sourceFactoryLink", current.sourceFactoryLink)]
  }

  /** The value a copy-state start document has for a queried property. */
  function StartField(start: CopyStateStart, name: string): Option<TermValue> {
    if name == "destinationIp" then TextTerm(name, start.destinationIp).matchValue
    else if name == "destinationPort" then (if start.destinationPort.Some? then Some(Number(start.destinationPort.value)) else None)
    else if name == "destinationProtocol" then TextTerm(name, start.destinationProtocol).matchValue
    else if name == "sourceIp" then TextTerm(name, start.sourceIp).matchValue
    else if name == "sourcePort" then (if start.sourcePort.Some? then Some(Number(start.sourcePort.value)) else None)
    else if name == "sourceProtocol" then TextTerm(name, start.sourceProtocol).matchValue
    else if name == "factoryLink" then TextTerm(name, start.factoryLink).matchValue
    else if name == "sourceFactoryLink" then TextTerm(name, start.sourceFactoryLink).matchValue
    else None
  }

  /** A task started by the trigger is found again by the trigger's own query: it matches every field clause. */
  lemma StartedTaskMatchesQuery(current: State, latestUpdateTime: int)
    requires ValidState(current)
    ensures forall k :: 1 <= k < |QueryTerms(current)| ==>
      StartField(BuildCopyStateStartState(current, latestUpdateTime), QueryTerms(current)[k].propertyName)
        == QueryTerms(current)[k].matchValue
  {
  }

  datatype QueryOutcome = QueryFailed | QueryReturned(instances: seq<CopyStateInstance>)

  /** What the trigger does after a patch: the query it sends, the task it starts, the self-patch it sends. */
  datatype Reaction = Reaction(query: Option<seq<Term>>, startRequest: Option<CopyStateStart>, selfPatch: Option<State>)

  /**
   * After a completed patch, a RUNNING trigger that received a pulse queries for
   * its copy-state tasks. When the query fails it counts an error. When no task
   * is running it starts one from the newest FINISHED watermark, then counts a
   * success or an error by how the start went.
   */
  function ProcessPatch(current: State, patch: State, queried: QueryOutcome, startFailed: bool): (r: Reaction)
    requires ValidState(current)
    ensures !(current.executionState == Some(RUNNING) && patch.pulse == Some(true)) ==> r == Reaction(None, None, None)
    ensures current.executionState == Some(RUNNING) && patch.pulse == Some(true) ==> r.query == Some(QueryTerms(current))
    ensures r.startRequest.Some? <==>
      current.executionState == Some(RUNNING) && patch.pulse == Some(true) && queried.QueryReturned? && NoneRunning(queried.instances)
    ensures r.startRequest.Some? ==>
      r.startRequest == Some(BuildCopyStateStartState(current, LatestFinishedUpdateTime(queried.instances)))
    ensures r.selfPatch == Some(ErrorPatch(current)) <==>
      current.executionState == Some(RUNNING) && patch.pulse == Some(true) && (queried.QueryFailed? || (r.startRequest.Some? && startFailed))
    ensures r.selfPatch == Some(SuccessPatch(current)) <==> r.startRequest.Some? && !startFailed
    ensures r.selfPatch.Some? ==> r.selfPatch == Some(ErrorPatch(current)) || r.selfPatch == Some(SuccessPatch(current))
  {
    if current.executionState != Some(RUNNING) || patch.pulse != Some(true) then Reaction(None, None, None)
    else
      var query := Some(QueryTerms(current));
      match queried
      case QueryFailed => Reaction(query, None, Some(ErrorPatch(current)))
      case QueryReturned(instances) =>
        if !NoneRunning(instances) then Reaction(query, None, None)
        else
          var start := BuildCopyStateStartState(current, LatestFinishedUpdateTime(instances));
          Reaction(query, Some(start), Some(if startFailed then ErrorPatch(current) else SuccessPatch(current)))
  }

  // ---------------------------------------------------------------------------
  // The service

  class CopyStateTriggerTaskService {
    /** The stored document, meaningful once started. */
    var state: State
    var started: bool
    /** The id of the host this instance runs on. */
    const hostId: string

    ghost predicate Valid()
      reads this
    {
      started ==> ValidState(state)
    }

    constructor (hostId: string)
      ensures Valid() && !started && this.hostId == hostId
    {
      this.hostId := hostId;
      state := EmptyState;
      started := false;
    }

    /** Start: fill in the execution state and defaults, drop any pulse, and store the document if it validates. */
    method HandleStart(body: State) returns (r: Outcome<TriggerError>)
      requires Valid() && !started
      modifies this
      ensures Valid()
      ensures r == ValidateState(StartState(body))
      ensures r.Pass? ==> started && state == StartState(body)
      ensures r.Fail? ==> !started && state == old(state)
    {
      var s := body;
      if s.executionState.None? {
        s := s.(executionState := Some(RUNNING));
      }
      if s.pulse.Some? {
        s := s.(pulse := None);
      }
      s := InitializeDefaults(s);
      r := ValidateState(s);
      if r.Pass? {
        state := s;
        started := true;
      }
    }

    /** Merges a patch into the stored document in place. */
    method ApplyPatch(patch: State)
      requires Valid() && started
      modifies this`state
      ensures state == Merge(old(state), patch)
      ensures Valid()
    {
      if patch.executionState.Some? {
        state := state.(executionState := patch.executionState);
      }
      state := state.(triggersSuccess := Some(UpdateLongWithMax(state.triggersSuccess.value, patch.triggersSuccess)));
      state := state.(triggersError := Some(UpdateLongWithMax(state.triggersError.value, patch.triggersError)));
    }

    /**
     * Patch: validate it, merge it, validate the result, complete. `process`
     * says whether the pulse continuation runs.
     */
    method HandlePatch(patch: State) returns (r: Outcome<TriggerError>, process: bool)
      requires Valid() && started
      modifies this`state
      ensures Valid()
      ensures r == ValidatePatch(patch)
      ensures r.Fail? ==> state == old(state) && !process
      ensures r.Pass? ==> state == Merge(old(state), patch)
      ensures process <==> r.Pass? && state.executionState == Some(RUNNING) && patch.pulse == Some(true)
    {
      r := ValidatePatch(patch);
      if r.Fail? {
        return r, false;
      }
      ghost var before := state;
      ApplyPatch(patch);
      MergeKeepsValid(before, patch);
      r := ValidateState(state);
      process := state.executionState == Some(RUNNING) && patch.pulse == Some(true);
    }

    /** On maintenance, only the host that owner selection names sends itself a pulse. */
    function MaintenancePatch(ownerNodeId: Option<string>): (p: Option<State>)
      ensures p.Some? <==> ownerNodeId == Some(hostId)
      ensures p.Some? ==> p.value == PulsePatch
    {
      if ownerNodeId.Some? && ownerNodeId.value == hostId then Some(PulsePatch) else None
    }
  }
}
