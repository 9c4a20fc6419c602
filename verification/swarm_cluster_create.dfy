/**
 * The Swarm cluster-create task: its stage / sub-stage state machine and the
 * stored task document that start creates and patches overwrite.
 *
 * The accepted and rejected start states and transitions are kept as the
 * constant tables the task's tests pin down, and a closed-form rule is proved
 * to reproduce every one of them.  Pairs the tables do not mention are left to
 * a policy the service is given, so the model does not decide them.
 */
module SwarmClusterCreate {
  import opened Wrappers
  import opened TaskStages
  import opened TaskDocuments

  datatype SubStage = ALLOCATE_RESOURCES | SETUP_ETCD | SETUP_MASTER | SETUP_SLAVES

  datatype TaskState = TaskState(stage: TaskStage, subStage: Option<SubStage>)

  /** What the tables, or the rule, say about a start state or a move. */
  datatype Verdict = Accepted | Rejected | Unspecified

  /** Position of a sub-stage in the workflow, starting at 0. */
  function SubStageIndex(s: SubStage): (r: nat)
    ensures r < 4
  {
    match s
    case ALLOCATE_RESOURCES => 0
    case SETUP_ETCD => 1
    case SETUP_MASTER => 2
    case SETUP_SLAVES => 3
  }

  /** A sub-stage is present exactly while the stage is STARTED. */
  predicate WellFormed(t: TaskState)
  {
    (t.stage == STARTED) == t.subStage.Some?
  }

  const Created := TaskState(CREATED, None)
  const AllocateResources := TaskState(STARTED, Some(ALLOCATE_RESOURCES))
  const SetupEtcd := TaskState(STARTED, Some(SETUP_ETCD))
  const SetupMaster := TaskState(STARTED, Some(SETUP_MASTER))
  const SetupSlaves := TaskState(STARTED, Some(SETUP_SLAVES))
  const Finished := TaskState(FINISHED, None)
  const Failed := TaskState(FAILED, None)
  const Cancelled := TaskState(CANCELLED, None)

  // ---------------------------------------------------------------------
  // The tables
  // ---------------------------------------------------------------------

  const VALID_START_STATES: set<TaskState> :=
    {Created, AllocateResources, SetupEtcd, SetupMaster, SetupSlaves, Finished, Cancelled, Failed}

  const INVALID_START_STATES: set<TaskState> :=
    {TaskState(CREATED, Some(ALLOCATE_RESOURCES)), TaskState(CREATED, Some(SETUP_ETCD)),
     TaskState(CREATED, Some(SETUP_MASTER)), TaskState(CREATED, Some(SETUP_SLAVES)),
     TaskState(FINISHED, Some(ALLOCATE_RESOURCES)), TaskState(FINISHED, Some(SETUP_ETCD)),
     TaskState(FINISHED, Some(SETUP_MASTER)), TaskState(FINISHED, Some(SETUP_SLAVES)),
     TaskState(FAILED, Some(ALLOCATE_RESOURCES)), TaskState(FAILED, Some(SETUP_ETCD)),
     TaskState(FAILED, Some(SETUP_MASTER)), TaskState(FAILED, Some(SETUP_SLAVES)),
     TaskState(CANCELLED, Some(ALLOCATE_RESOURCES)), TaskState(CANCELLED, Some(SETUP_ETCD)),
     TaskState(CANCELLED, Some(SETUP_MASTER)), TaskState(CANCELLED, Some(SETUP_SLAVES))}

  const VALID_TRANSITIONS: set<(TaskState, TaskState)> :=
    {(Created, AllocateResources), (Created, Failed), (Created, Cancelled),
     (AllocateResources, SetupEtcd), (AllocateResources, Failed), (AllocateResources, Cancelled),
     (SetupEtcd, SetupMaster), (SetupEtcd, Failed), (SetupEtcd, Cancelled),
     (SetupMaster, SetupSlaves), (SetupMaster, Failed), (SetupMaster, Cancelled),
     (SetupSlaves, Finished), (SetupSlaves, Failed), (SetupSlaves, Cancelled)}

  const INVALID_TRANSITIONS: set<(TaskState, TaskState)> :=
    {(Created, Created),
     (AllocateResources, Created),
     (SetupEtcd, Created), (SetupEtcd, AllocateResources),
     (SetupMaster, Created), (SetupMaster, AllocateResources), (SetupMaster, SetupEtcd),
     (SetupSlaves, Created), (SetupSlaves, AllocateResources), (SetupSlaves, SetupEtcd),
     (SetupSlaves, SetupMaster),
     (Finished, Created), (Finished, AllocateResources), (Finished, SetupEtcd),
     (Finished, SetupMaster), (Finished, SetupSlaves), (Finished, Finished),
     (Finished, Failed), (Finished, Cancelled),
     (Failed, Created), (Failed, AllocateResources), (Failed, SetupEtcd),
     (Failed, SetupMaster), (Failed, SetupSlaves), (Failed, Finished),
     (Failed, Failed), (Failed, Cancelled),
     (Cancelled, Created), (Cancelled, AllocateResources), (Cancelled, SetupEtcd),
     (Cancelled, SetupMaster), (Cancelled, SetupSlaves), (Cancelled, Finished),
     (Cancelled, Failed), (Cancelled, Cancelled)}

  function TableStartVerdict(t: TaskState): Verdict
  {
    if t in VALID_START_STATES then Accepted
    else if t in INVALID_START_STATES then Rejected
    else Unspecified
  }

  function TableVerdict(from: TaskState, to: TaskState): Verdict
  {
    if (from, to) in VALID_TRANSITIONS then Accepted
    else if (from, to) in INVALID_TRANSITIONS then Rejected
    else Unspecified
  }

  // ---------------------------------------------------------------------
  // The rule
  // ---------------------------------------------------------------------

  /** The step after `t` on the forward chain CREATED, the four sub-stages, FINISHED. */
  function Next(t: TaskState): (r: Option<TaskState>)
    ensures r.Some? ==> WellFormed(t) && WellFormed(r.value) && !IsFinalStage(t.stage)
  {
    if t == Created then Some(AllocateResources)
    else if t.stage != STARTED || t.subStage.None? then None
    else
      match t.subStage.value
      case ALLOCATE_RESOURCES => Some(SetupEtcd)
      case SETUP_ETCD => Some(SetupMaster)
      case SETUP_MASTER => Some(SetupSlaves)
      case SETUP_SLAVES => Some(Finished)
  }

  /** A sub-stage move within STARTED that goes back along the workflow. */
  predicate IsBackward(from: TaskState, to: TaskState)
  {
    from.stage == STARTED && to.stage == STARTED && from.subStage.Some? && to.subStage.Some? &&
    SubStageIndex(to.subStage.value) < SubStageIndex(from.subStage.value)
  }

  /** Every well-formed state may start the task; a sub-stage outside STARTED may not. */
  function StartRule(t: TaskState): (r: Verdict)
    ensures r == Accepted <==> WellFormed(t)
    ensures r == Rejected <==> t.stage != STARTED && t.subStage.Some?
  {
    if WellFormed(t) then Accepted
    else if t.stage != STARTED then Rejected
    else Unspecified
  }

  /**
   * Nothing moves back to CREATED, out of a final stage, or back along the
   * sub-stages; FAILED and CANCELLED are reachable from every other stage, and
   * so is the next step of the chain.
   */
  function RuleVerdict(from: TaskState, to: TaskState): (r: Verdict)
    ensures r == Rejected <==> to.stage == CREATED || IsFinalStage(from.stage) || IsBackward(from, to)
    ensures r == Accepted ==>
      (to == Failed || to == Cancelled || Next(from) == Some(to)) && !IsFinalStage(from.stage)
  {
    if to.stage == CREATED || IsFinalStage(from.stage) || IsBackward(from, to) then Rejected
    else if to == Failed || to == Cancelled then Accepted
    else if Next(from) == Some(to) then Accepted
    else Unspecified
  }

  /** The start rule gives exactly the tables' verdict on every stage and sub-stage combination. */
  lemma StartRuleMatchesTables(t: TaskState)
    ensures StartRule(t) == TableStartVerdict(t)
  {
    if t.subStage.Some? {
      match t.subStage.value
      case ALLOCATE_RESOURCES =>
      case SETUP_ETCD =>
      case SETUP_MASTER =>
      case SETUP_SLAVES =>
    }
  }

  /** The eight well-formed states. */
  lemma WellFormedCases(t: TaskState)
    requires WellFormed(t)
    ensures t in {Created, AllocateResources, SetupEtcd, SetupMaster, SetupSlaves, Finished, Failed, Cancelled}
  {
    if t.subStage.Some? {
      match t.subStage.value
      case ALLOCATE_RESOURCES =>
      case SETUP_ETCD =>
      case SETUP_MASTER =>
      case SETUP_SLAVES =>
    }
  }

  /** The transition rule gives exactly the tables' verdict on every pair of well-formed states. */
  lemma RuleMatchesTables(from: TaskState, to: TaskState)
    requires WellFormed(from) && WellFormed(to)
    ensures RuleVerdict(from, to) == TableVerdict(from, to)
  {
    WellFormedCases(from);
    WellFormedCases(to);
  }

  lemma RuleMatchesTablesIfWellFormed(from: TaskState, to: TaskState)
    ensures WellFormed(from) && WellFormed(to) ==> RuleVerdict(from, to) == TableVerdict(from, to)
  {
    if WellFormed(from) && WellFormed(to) {
      RuleMatchesTables(from, to);
    }
  }

  /** Position of a state on the forward chain; final stages come last. */
  function Progress(t: TaskState): (r: nat)
    ensures r <= 5
    ensures r == 5 <==> IsFinalStage(t.stage)
  {
    if IsFinalStage(t.stage) then 5
    else if t.stage == STARTED && t.subStage.Some? then 1 + SubStageIndex(t.subStage.value)
    else 0
  }

  /** Every accepted move goes strictly forward, so no run of accepted patches can cycle. */
  lemma AcceptedMovesProgress(from: TaskState, to: TaskState)
    requires RuleVerdict(from, to) == Accepted
    ensures Progress(from) < Progress(to)
  {
    if to != Failed && to != Cancelled {
      assert Next(from) == Some(to);
      if from != Created {
        match from.subStage.value
        case ALLOCATE_RESOURCES =>
        case SETUP_ETCD =>
        case SETUP_MASTER =>
        case SETUP_SLAVES =>
      }
    }
  }

  /** The table's accepted moves all go strictly forward. */
  lemma TableMovesProgress(from: TaskState, to: TaskState)
    requires (from, to) in VALID_TRANSITIONS
    ensures Progress(from) < Progress(to)
  {
    assert WellFormed(from) && WellFormed(to);
    RuleMatchesTables(from, to);
    AcceptedMovesProgress(from, to);
  }

  // ---------------------------------------------------------------------
  // The service
  // ---------------------------------------------------------------------

  /** A task document: its task state and its other non-null fields. */
  datatype Document = Document(taskState: TaskState, fields: Fields)

  /** How the tables, and the policy for what they leave open, decide a verdict. */
  predicate Admits(v: Verdict, policy: bool)
  {
    v == Accepted || (v == Unspecified && policy)
  }

  /**
   * Start: every `@NotNull` field is required, then the start state must be
   * one the tables accept (or one they leave open and the policy admits).
   */
  function StartDecision(schema: Schema, openStart: TaskState -> bool, body: Document): (r: Outcome<DocumentError>)
    ensures r.Pass? <==>
      ValidateRequired(schema, body.fields).Pass? &&
      Admits(TableStartVerdict(body.taskState), openStart(body.taskState))
    ensures ValidateRequired(schema, body.fields).Fail? ==> r == ValidateRequired(schema, body.fields)
    ensures ValidateRequired(schema, body.fields).Pass? && r.Fail? ==> r == Fail(InvalidStartState)
  {
    StartRuleMatchesTables(body.taskState);
    var required := ValidateRequired(schema, body.fields);
    if required.Fail? then required
    else if Admits(StartRule(body.taskState), openStart(body.taskState)) then Pass
    else Fail(InvalidStartState)
  }

  /**
   * Patch: a patch may set no `@Immutable` field, whatever the value, and
   * its stage move must be one the tables accept (or leave open and the
   * policy admits).
   */
  function PatchDecision(schema: Schema, openMove: (TaskState, TaskState) -> bool,
                         current: TaskState, patch: Document): (r: Outcome<DocumentError>)
    ensures IsFinalStage(current.stage) ==> r.Fail?
    ensures patch.taskState.stage == CREATED ==> r.Fail?
    ensures IsBackward(current, patch.taskState) ==> r.Fail?
    ensures ValidateImmutable(schema, patch.fields).Fail? ==> r == ValidateImmutable(schema, patch.fields)
    ensures WellFormed(current) && WellFormed(patch.taskState) ==>
      (r.Pass? <==>
        ValidateImmutable(schema, patch.fields).Pass? &&
        Admits(TableVerdict(current, patch.taskState), openMove(current, patch.taskState)))
  {
    RuleMatchesTablesIfWellFormed(current, patch.taskState);
    var immutable := ValidateImmutable(schema, patch.fields);
    if immutable.Fail? then immutable
    else if Admits(RuleVerdict(current, patch.taskState), openMove(current, patch.taskState)) then Pass
    else Fail(InvalidTransition)
  }

  class SwarmClusterCreateTaskService {
    /** The document's fields with their `@NotNull` and `@Immutable` marks. */
    const schema: Schema
    /** Decides the start states the tables leave open (STARTED without a sub-stage). */
    const openStart: TaskState -> bool
    /** Decides the well-formed moves the tables leave open. */
    const openMove: (TaskState, TaskState) -> bool

    var started: bool
    var document: Document

    ghost predicate Valid()
      reads this
    {
      started ==> ValidateRequired(schema, document.fields).Pass?
    }

    constructor (schema: Schema, openStart: TaskState -> bool, openMove: (TaskState, TaskState) -> bool)
      ensures this.schema == schema && this.openStart == openStart && this.openMove == openMove
      ensures !started
      ensures Valid()
    {
      this.schema := schema;
      this.openStart := openStart;
      this.openMove := openMove;
      started := false;
      document := Document(Created, map[]);
    }

    /** A start either stores the posted document as it is, or is rejected and stores nothing. */
    method HandleStart(body: Document) returns (r: Outcome<DocumentError>)
      requires !started
      modifies this`started, this`document
      ensures r == StartDecision(schema, openStart, body)
      ensures r.Pass? ==> started && document == body
      ensures r.Fail? ==> !started && document == old(document)
      ensures Valid()
    {
      r := StartDecision(schema, openStart, body);
      if r.Pass? {
        started := true;
        document := body;
      }
    }

    /**
     * An accepted patch replaces the task state with the patch's and
     * overwrites the fields the patch carries; a rejected one changes nothing.
     */
    method HandlePatch(patch: Document) returns (r: Outcome<DocumentError>)
      requires started && Valid()
      modifies this`document
      ensures r == PatchDecision(schema, openMove, old(document).taskState, patch)
      ensures r.Pass? ==>
        document == Document(patch.taskState, MergePatch(old(document).fields, patch.fields))
      ensures r.Fail? ==> document == old(document)
      ensures Valid()
    {
      r := PatchDecision(schema, openMove, document.taskState, patch);
      if r.Pass? {
        MergeKeepsRequired(schema, document.fields, patch.fields);
        document := Document(patch.taskState, MergePatch(document.fields, patch.fields));
      }
    }
  }
}
