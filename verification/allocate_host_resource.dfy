/**
 * The allocate-host-resource task: a stage-only state machine over the stored
 * task document.  Its tests accept every stage as a start stage and decide
 * every one of the twenty-five stage moves, so the tables here are complete
 * and a two-clause rule is proved equal to them.
 */
module AllocateHostResource {
  import opened Wrappers
  import opened TaskStages
  import opened TaskDocuments

  const VALID_START_STAGES: set<TaskStage> := {CREATED, STARTED, FINISHED, FAILED, CANCELLED}

  const VALID_TRANSITIONS: set<(TaskStage, TaskStage)> :=
    {(CREATED, STARTED), (CREATED, FINISHED), (CREATED, FAILED), (CREATED, CANCELLED),
     (STARTED, STARTED), (STARTED, FINISHED), (STARTED, FAILED), (STARTED, CANCELLED)}

  const INVALID_TRANSITIONS: set<(TaskStage, TaskStage)> :=
    {(CREATED, CREATED), (STARTED, CREATED),
     (FINISHED, CREATED), (FINISHED, STARTED), (FINISHED, FINISHED), (FINISHED, FAILED), (FINISHED, CANCELLED),
     (FAILED, CREATED), (FAILED, STARTED), (FAILED, FINISHED), (FAILED, FAILED), (FAILED, CANCELLED),
     (CANCELLED, CREATED), (CANCELLED, STARTED), (CANCELLED, FINISHED), (CANCELLED, FAILED), (CANCELLED, CANCELLED)}

  /** A move is allowed out of a non-final stage to anything but CREATED. */
  predicate Allowed(from: TaskStage, to: TaskStage)
  {
    !IsFinalStage(from) && to != CREATED
  }

  /** Every stage is an accepted start stage. */
  lemma EveryStageStarts(stage: TaskStage)
    ensures stage in VALID_START_STAGES
  {
  }

  /**
   * The two tables partition the twenty-five moves, and the accepted table is
   * exactly the rule: both directions of the if-and-only-if.
   */
  lemma RuleMatchesTables(from: TaskStage, to: TaskStage)
    ensures (from, to) in VALID_TRANSITIONS <==> Allowed(from, to)
    ensures (from, to) in INVALID_TRANSITIONS <==> !Allowed(from, to)
  {
    match from
    case CREATED =>
    case STARTED =>
    case FINISHED =>
    case FAILED =>
    case CANCELLED =>
  }

  /** A task document: its stage and its other non-null fields (`hostServiceLink`, ...). */
  datatype Document = Document(stage: TaskStage, fields: Fields)

  /** A patch may set no `@Immutable` field, and its stage move must be in the accepted table. */
  function PatchDecision(schema: Schema, current: TaskStage, patch: Document): (r: Outcome<DocumentError>)
    ensures r.Pass? <==>
      ValidateImmutable(schema, patch.fields).Pass? && (current, patch.stage) in VALID_TRANSITIONS
    ensures (current, patch.stage) in INVALID_TRANSITIONS ==> r.Fail?
    ensures IsFinalStage(current) ==> r.Fail?
    ensures ValidateImmutable(schema, patch.fields).Fail? ==> r == ValidateImmutable(schema, patch.fields)
  {
    RuleMatchesTables(current, patch.stage);
    var immutable := ValidateImmutable(schema, patch.fields);
    if immutable.Fail? then immutable
    else if Allowed(current, patch.stage) then Pass
    else Fail(InvalidTransition)
  }

  class AllocateHostResourceTaskService {
    /** The document's fields with their `@Immutable` marks. */
    const schema: Schema

    var started: bool
    var document: Document

    constructor (schema: Schema)
      ensures this.schema == schema && !started
    {
      this.schema := schema;
      started := false;
      document := Document(CREATED, map[]);
    }

    /**
     * A start in any stage is stored as posted: a task started in a final
     * stage keeps that stage, and `hostServiceLink` is kept as given.
     */
    method HandleStart(body: Document)
      requires !started
      modifies this`started, this`document
      ensures started && document == body
      ensures document.stage in VALID_START_STAGES
    {
      EveryStageStarts(body.stage);
      started := true;
      document := body;
    }

    /** An accepted patch stores the target stage and the fields it carries; a rejected one changes nothing. */
    method HandlePatch(patch: Document) returns (r: Outcome<DocumentError>)
      requires started
      modifies this`document
      ensures r == PatchDecision(schema, old(document).stage, patch)
      ensures r.Pass? ==> document == Document(patch.stage, MergePatch(old(document).fields, patch.fields))
      ensures r.Fail? ==> document == old(document)
    {
      r := PatchDecision(schema, document.stage, patch);
      if r.Pass? {
        document := Document(patch.stage, MergePatch(document.fields, patch.fields));
      }
    }
  }
}
