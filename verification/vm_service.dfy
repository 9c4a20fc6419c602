/**
 * The cloud-store VM document: the five fields a start must carry, the
 * partial patch that overwrites the fields it carries, and how a rejected
 * start reaches a caller of the REST client as a bad request.
 */
module VmService {
  import opened Wrappers
  import DcpRestClient

  /** The VM lifecycle states; only CREATING and STARTED are named here, the rest by their text. */
  datatype VmState = CREATING | STARTED | OtherVmState(text: string)

  /** The required part of a VM document; every reference field starts out null. */
  datatype State = State(
    name: Option<string>,
    flavorId: Option<string>,
    imageId: Option<string>,
    projectId: Option<string>,
    vmState: Option<VmState>)

  const REQUIRED_FIELDS: seq<string> := ["name", "flavorId", "imageId", "projectId", "vmState"]

  /** A `State` as constructed: all five fields null. */
  const NEW_STATE := State(None, None, None, None, None)

  /** Whether the named required field is null. */
  predicate IsNull(s: State, field: string)
  {
    match field
    case "name" => s.name.None?
    case "flavorId" => s.flavorId.None?
    case "imageId" => s.imageId.None?
    case "projectId" => s.projectId.None?
    case "vmState" => s.vmState.None?
    case _ => false
  }

  predicate IsComplete(s: State)
  {
    s.name.Some? && s.flavorId.Some? && s.imageId.Some? && s.projectId.Some? && s.vmState.Some?
  }

  function NullFieldMessage(field: string): string
  {
    field + " cannot be null"
  }

  /** A fresh document lacks every required field, so it cannot be started as it is. */
  lemma NewStateHasEveryFieldNull(field: string)
    requires field in REQUIRED_FIELDS
    ensures IsNull(NEW_STATE, field)
  {
  }

  /** Start validation: the first null required field is reported by name. */
  function ValidateStart(s: State): (r: Outcome<string>)
    ensures r.Pass? <==> IsComplete(s)
    ensures r.Fail? ==>
      exists field :: field in REQUIRED_FIELDS && IsNull(s, field) && r.error == NullFieldMessage(field)
  {
    if s.name.None? then Fail(NullFieldMessage("name"))
    else if s.flavorId.None? then Fail(NullFieldMessage("flavorId"))
    else if s.imageId.None? then Fail(NullFieldMessage("imageId"))
    else if s.projectId.None? then Fail(NullFieldMessage("projectId"))
    else if s.vmState.None? then Fail(NullFieldMessage("vmState"))
    else Pass
  }

  /** A start that lacks exactly one required field is rejected with that field's name. */
  lemma MissingFieldIsNamed(s: State, field: string)
    requires field in REQUIRED_FIELDS && IsNull(s, field)
    requires forall other :: other in REQUIRED_FIELDS && other != field ==> !IsNull(s, other)
    ensures ValidateStart(s) == Fail(NullFieldMessage(field))
  {
    assert REQUIRED_FIELDS[0] == "name" && REQUIRED_FIELDS[1] == "flavorId" && REQUIRED_FIELDS[2] == "imageId";
    assert REQUIRED_FIELDS[3] == "projectId" && REQUIRED_FIELDS[4] == "vmState";
  }

  /** Each field the patch carries replaces the stored one. */
  function MergePatch(current: State, patch: State): (r: State)
    ensures patch.name.Some? ==> r.name == patch.name
    ensures patch.name.None? ==> r.name == current.name
    ensures patch.flavorId.Some? ==> r.flavorId == patch.flavorId
    ensures patch.flavorId.None? ==> r.flavorId == current.flavorId
    ensures patch.imageId.Some? ==> r.imageId == patch.imageId
    ensures patch.imageId.None? ==> r.imageId == current.imageId
    ensures patch.projectId.Some? ==> r.projectId == patch.projectId
    ensures patch.projectId.None? ==> r.projectId == current.projectId
    ensures patch.vmState.Some? ==> r.vmState == patch.vmState
    ensures patch.vmState.None? ==> r.vmState == current.vmState
  {
    State(
      if patch.name.Some? then patch.name else current.name,
      if patch.flavorId.Some? then patch.flavorId else current.flavorId,
      if patch.imageId.Some? then patch.imageId else current.imageId,
      if patch.projectId.Some? then patch.projectId else current.projectId,
      if patch.vmState.Some? then patch.vmState else current.vmState)
  }

  /** A patch carrying only `vmState` sets it and leaves the rest, and keeps a started VM complete. */
  lemma VmStatePatch(current: State, v: VmState)
    ensures MergePatch(current, NEW_STATE.(vmState := Some(v))) == current.(vmState := Some(v))
    ensures IsComplete(current) ==> IsComplete(MergePatch(current, NEW_STATE.(vmState := Some(v))))
  {
  }

  class VmServiceHost {
    /** The stored document, once a start has been accepted. */
    var document: Option<State>

    constructor ()
      ensures document.None?
    {
      document := None;
    }

    ghost predicate Valid()
      reads this
    {
      document.Some? ==> IsComplete(document.value)
    }

    /** A start stores the posted document if it carries all five fields; otherwise nothing is stored. */
    method HandleStart(body: State) returns (r: Outcome<string>)
      requires document.None?
      modifies this
      ensures r == ValidateStart(body)
      ensures r.Pass? ==> document == Some(body)
      ensures r.Fail? ==> document.None?
      ensures Valid()
    {
      r := ValidateStart(body);
      if r.Pass? {
        document := Some(body);
      }
    }

    /** A patch overwrites the fields it carries. */
    method HandlePatch(patch: State)
      requires document.Some? && Valid()
      modifies this
      ensures document == Some(MergePatch(old(document).value, patch))
      ensures Valid()
    {
      document := Some(MergePatch(document.value, patch));
    }
  }

  // ---------------------------------------------------------------------
  // Through the REST client
  // ---------------------------------------------------------------------

  function VmStateText(v: VmState): string
  {
    match v
    case CREATING => "CREATING"
    case STARTED => "STARTED"
    case OtherVmState(text) => text
  }

  /** The JSON fields of a VM document: the non-null ones. */
  function ToDocument(s: State): (d: DcpRestClient.Document)
    ensures "name" in d <==> s.name.Some?
    ensures s.name.Some? ==> d["name"] == s.name.value
  {
    (if s.name.Some? then map["name" := s.name.value] else map[]) +
    (if s.flavorId.Some? then map["flavorId" := s.flavorId.value] else map[]) +
    (if s.imageId.Some? then map["imageId" := s.imageId.value] else map[]) +
    (if s.projectId.Some? then map["projectId" := s.projectId.value] else map[]) +
    (if s.vmState.Some? then map["vmState" := VmStateText(s.vmState.value)] else map[])
  }

  /** How the VM factory answers a POST of `s`: the created document, or 400 with the validation message. */
  function StartReply(s: State): DcpRestClient.Completion
  {
    match ValidateStart(s)
    case Pass => DcpRestClient.Completed(DcpRestClient.STATUS_CODE_OK, DcpRestClient.DocumentBody(ToDocument(s)))
    case Fail(message) => DcpRestClient.Completed(DcpRestClient.STATUS_CODE_BAD_REQUEST, DcpRestClient.ErrorResponse(message))
  }

  /** Posting a complete VM document returns the created document with the posted name. */
  lemma PostCompleteVmReturnsName(client: DcpRestClient.Client, env: DcpRestClient.Env, factoryLink: string, s: State)
    requires |client.servers| > 0 && IsComplete(s)
    ensures DcpRestClient.Post(client, env, factoryLink, DcpRestClient.DocumentBody(ToDocument(s)), StartReply(s)).Success?
    ensures
      var r := DcpRestClient.Post(client, env, factoryLink, DcpRestClient.DocumentBody(ToDocument(s)), StartReply(s));
      r.value.body == DcpRestClient.DocumentBody(ToDocument(s)) && r.value.body.document["name"] == s.name.value
  {
  }

  /** Posting a VM document that lacks one required field fails with a bad request naming that field. */
  lemma PostMissingFieldIsBadRequest(client: DcpRestClient.Client, env: DcpRestClient.Env, factoryLink: string,
                                     s: State, field: string)
    requires |client.servers| > 0
    requires field in REQUIRED_FIELDS && IsNull(s, field)
    requires forall other :: other in REQUIRED_FIELDS && other != field ==> !IsNull(s, other)
    ensures DcpRestClient.Post(client, env, factoryLink, DcpRestClient.DocumentBody(ToDocument(s)), StartReply(s))
      == Failure(DcpRestClient.BadRequest(NullFieldMessage(field)))
  {
    MissingFieldIsNamed(s, field);
  }
}
