/** The HTTP exchanges with the controller, abstracted: a request is a verb, a
    path below the configured host and an optional JSON body; a reply is either
    a transport fault or a status code with a body. */
module Http {
  import opened Base
  import opened Values

  datatype Verb = GET | POST | PUT | DELETE

  datatype Request = Request(verb: Verb, path: seq<string>, body: Option<Value>)

  datatype Body = Unreadable | Malformed | Json(value: Value)

  datatype Reply = TransportFault | Response(status: int, body: Body)

  const OK: int := 200
  const CREATED: int := 201
  const NO_CONTENT: int := 204
  const NOT_FOUND: int := 404
  const CONFLICT: int := 409

  /** The reply to the i-th request of a scripted series; a script that runs
      short answers the remaining requests with a transport fault. */
  function At(replies: seq<Reply>, i: nat): Reply
  {
    if i < |replies| then replies[i] else TransportFault
  }

  /** The status check every operation makes: a transport fault or a status
      outside `accepted` is an error. */
  function Expect(reply: Reply, accepted: set<int>): (e: Option<Error>)
    ensures e.None? <==> reply.Response? && reply.status in accepted
  {
    match reply
    case TransportFault => Some(Transport)
    case Response(status, _) => if status in accepted then None else Some(Rejected(status))
  }

  /** `json.NewDecoder(resp.Body).Decode(&m)` into a `map[string]interface{}`. */
  function DecodeRecord(b: Body): (r: Result<Record>)
    ensures r.Err? ==> r.error == Decode
    ensures r.Ok? <==> b.Json? && AsRecord(b.value).Some?
    // an object gives its fields, null the empty map
    ensures b.Json? && b.value.Obj? ==> r == Ok(b.value.fields)
    ensures b == Json(Null) ==> r == Ok(map[])
  {
    match b
    case Json(v) => if AsRecord(v).Some? then Ok(AsRecord(v).value) else Err(Decode)
    case _ => Err(Decode)
  }

  /** The same into a `[]map[string]interface{}`. */
  function DecodeRecordList(b: Body): (r: Result<seq<Record>>)
    ensures r.Err? ==> r.error == Decode
    ensures r.Ok? <==> b.Json? && AsRecordList(b.value).Some?
    // the decoded list has one record per element, in order; null gives the empty list
    ensures r.Ok? && b.value.Arr? ==>
      |r.value| == |b.value.items| && forall i :: 0 <= i < |r.value| ==> AsRecord(b.value.items[i]) == Some(r.value[i])
    ensures b == Json(Null) ==> r == Ok([])
  {
    match b
    case Json(v) => if AsRecordList(v).Some? then Ok(AsRecordList(v).value) else Err(Decode)
    case _ => Err(Decode)
  }
}

/** The controller endpoints the provider calls (paths below the configured host). */
module Api {
  import opened Base
  import opened Values
  import opened Http

  function NodesPath(projectId: string): seq<string> { ["v2", "projects", projectId, "nodes"] }
  function NodePath(projectId: string, nodeId: string): seq<string> { NodesPath(projectId) + [nodeId] }
  function LinksPath(projectId: string): seq<string> { ["v2", "projects", projectId, "links"] }
  function ProjectPath(projectId: string): seq<string> { ["v2", "projects", projectId] }

  function ListNodes(projectId: string): Request { Request(GET, NodesPath(projectId), None) }
  function PostNode(projectId: string, payload: Record): Request { Request(POST, NodesPath(projectId), Some(Obj(payload))) }
  function GetNode(projectId: string, nodeId: string): Request { Request(GET, NodePath(projectId, nodeId), None) }
  function PutNode(projectId: string, nodeId: string, payload: Record): Request
  {
    Request(PUT, NodePath(projectId, nodeId), Some(Obj(payload)))
  }
  function DeleteNode(projectId: string, nodeId: string): Request { Request(DELETE, NodePath(projectId, nodeId), None) }
  function StopNode(projectId: string, nodeId: string): Request { Request(POST, NodePath(projectId, nodeId) + ["stop"], None) }
  function StartNode(projectId: string, nodeId: string): Request { Request(POST, NodePath(projectId, nodeId) + ["start"], None) }
  /** Stopping and starting a node are different requests. */
  lemma StopIsNotStart(projectId: string, nodeId: string)
    ensures StopNode(projectId, nodeId) != StartNode(projectId, nodeId)
  {
    var stop := StopNode(projectId, nodeId).path;
    assert stop[|stop| - 1] == "stop";
  }

  /** Starting every node of a project; the body is the empty JSON object. */
  function StartAllNodes(projectId: string): Request { Request(POST, NodesPath(projectId) + ["start"], Some(Obj(map[]))) }

  function PostLink(projectId: string, payload: Value): Request { Request(POST, LinksPath(projectId), Some(payload)) }
  function GetLink(projectId: string, linkId: string): Request { Request(GET, LinksPath(projectId) + [linkId], None) }
  function PutLink(projectId: string, linkId: string, payload: Value): Request
  {
    Request(PUT, LinksPath(projectId) + [linkId], Some(payload))
  }
  function DeleteLink(projectId: string, linkId: string): Request { Request(DELETE, LinksPath(projectId) + [linkId], None) }
  /** The link listing the link data source reads, below the configured API URL. */
  function ListControllerLinks(projectId: string): Request
  {
    Request(GET, ["v2", "controller", "link", "projects", projectId, "links"], None)
  }

  function ListProjects(): Request { Request(GET, ["v2", "projects"], None) }
  function PostProject(payload: Record): Request { Request(POST, ["v2", "projects"], Some(Obj(payload))) }
  function PostComputeProject(payload: Record): Request { Request(POST, ["v2", "compute", "projects"], Some(Obj(payload))) }
  function OpenProject(projectId: string): Request { Request(POST, ProjectPath(projectId) + ["open"], None) }
  function GetProject(projectId: string): Request { Request(GET, ProjectPath(projectId), None) }
  function PutProject(projectId: string, payload: Record): Request { Request(PUT, ProjectPath(projectId), Some(Obj(payload))) }
  function DeleteProject(projectId: string): Request { Request(DELETE, ProjectPath(projectId), None) }

  function ListTemplates(): Request { Request(GET, ["v2", "templates"], None) }
}

/** The host framework's per-resource state: the stored identity (`d.Id()`) and
    the attributes the provider writes with `d.Set`. */
module Resource {
  import opened Base
  import opened Values
  import opened Http

  class ResourceData {
    var id: string
    var attrs: map<string, Value>

    constructor (id: string, attrs: map<string, Value>)
      ensures this.id == id && this.attrs == attrs
    {
      this.id := id;
      this.attrs := attrs;
    }
  }

  /** Everything an operation does: the requests it issues in order, the error
      it returns (None for success), and the identity and attributes it leaves. */
  datatype Effect = Effect(trace: seq<Request>, err: Option<Error>, id: string, attrs: map<string, Value>)

  /** `e` preceded by the requests `prefix`. */
  function After(prefix: seq<Request>, e: Effect): Effect
  {
    e.(trace := prefix + e.trace)
  }
}
