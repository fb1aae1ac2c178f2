/** The create, read, update and delete that the switch and cloud resources
    share: a small node struct serialised with omitempty, a changed-fields
    update body, and their status policies. The two resources differ only in
    the node type they create and the attribute that mirrors the node ID. */
module NodeCrud {
  import opened Base
  import opened Values
  import opened Http
  import opened Api
  import opened Resource

  /** What distinguishes the resources: the node_type sent on create and the
      computed attribute that receives the node ID. */
  datatype Kind = Kind(nodeType: string, idAttr: string)

  /** The node struct exchanged with the controller. compute_id, node_id, x and
      y are omitted from the JSON when they hold their zero value. */
  datatype NodeBody = NodeBody(name: string, nodeType: string, computeId: string, nodeId: string, x: int, y: int)

  /** The configured arguments create reads; x and y read as 0 when unset. */
  datatype Args = Args(name: string, computeId: string, x: int, y: int)

  /** The changes update sees; x or y removed from the configuration reads as Changed(0). */
  datatype Changes = Changes(name: Change<string>, computeId: Change<string>, x: Change<int>, y: Change<int>)

  const BodyKeys: set<string> := {"name", "node_type", "compute_id", "node_id", "x", "y"}

  /** The JSON value of each struct field; None when omitempty drops it. */
  function BodyField(n: NodeBody, key: string): Option<Value>
  {
    if key == "name" then Some(Str(n.name))
    else if key == "node_type" then Some(Str(n.nodeType))
    else if key == "compute_id" then (if n.computeId != "" then Some(Str(n.computeId)) else None)
    else if key == "node_id" then (if n.nodeId != "" then Some(Str(n.nodeId)) else None)
    else if key == "x" then (if n.x != 0 then Some(Num(n.x)) else None)
    else if key == "y" then (if n.y != 0 then Some(Num(n.y)) else None)
    else None
  }

  /** `json.Marshal` of the struct. */
  function Marshal(n: NodeBody): (r: Record)
    ensures r.Keys <= BodyKeys
    ensures "name" in r && r["name"] == Str(n.name)
    ensures "node_type" in r && r["node_type"] == Str(n.nodeType)
    // the omitempty fields appear exactly when they are not at their zero value
    ensures "compute_id" in r <==> n.computeId != ""
    ensures "node_id" in r <==> n.nodeId != ""
    ensures "x" in r <==> n.x != 0
    ensures "y" in r <==> n.y != 0
  {
    map k | k in BodyKeys && BodyField(n, k).Some? :: BodyField(n, k).value
  }

  predicate StringOrNull(r: Record, key: string) { Lookup(r, key).Null? || Lookup(r, key).Str? }
  predicate NumberOrNull(r: Record, key: string) { Lookup(r, key).Null? || Lookup(r, key).Num? }

  /** Decoding a JSON object into the struct: an absent field keeps its zero
      value, a field of the wrong JSON type is an error, other keys are ignored. */
  function Unmarshal(r: Record): (n: Result<NodeBody>)
    ensures n.Ok? <==>
      (StringOrNull(r, "name") && StringOrNull(r, "node_type") && StringOrNull(r, "compute_id") &&
       StringOrNull(r, "node_id") && NumberOrNull(r, "x") && NumberOrNull(r, "y"))
    ensures n.Ok? ==> n.value.nodeId == (if Lookup(r, "node_id").Str? then r["node_id"].s else "")
    ensures n.Ok? ==> n.value.name == (if Lookup(r, "name").Str? then r["name"].s else "")
    ensures n.Err? ==> n.error == Decode
  {
    match (StructString(r, "name"), StructString(r, "node_type"), StructString(r, "compute_id"),
           StructString(r, "node_id"), StructInt(r, "x"), StructInt(r, "y"))
    case (Ok(name), Ok(nodeType), Ok(computeId), Ok(nodeId), Ok(x), Ok(y)) =>
      Ok(NodeBody(name, nodeType, computeId, nodeId, x, y))
    case _ => Err(Decode)
  }

  /** omitempty loses nothing: the dropped fields decode back to their zero values. */
  lemma MarshalRoundTrip(n: NodeBody)
    ensures Unmarshal(Marshal(n)) == Ok(n)
  {
    var r := Marshal(n);
    assert StructString(r, "compute_id") == Ok(n.computeId);
    assert StructString(r, "node_id") == Ok(n.nodeId);
    assert StructInt(r, "x") == Ok(n.x);
    assert StructInt(r, "y") == Ok(n.y);
  }

  /** A create or update response body decoded into the struct; JSON null leaves it all zero. */
  function DecodeNode(b: Body): (r: Result<NodeBody>)
    ensures r.Err? ==> r.error == Decode
    ensures b.Json? && b.value.Obj? ==> r == Unmarshal(b.value.fields)
    // anything but an object or null is a decode error; null gives the zero struct
    ensures r.Ok? <==> b.Json? && (b.value.Null? || (b.value.Obj? && Unmarshal(b.value.fields).Ok?))
    ensures b == Json(Null) ==> r == Ok(NodeBody("", "", "", "", 0, 0))
  {
    match b
    case Json(Obj(m)) => Unmarshal(m)
    case Json(Null) => Ok(NodeBody("", "", "", "", 0, 0))
    case _ => Err(Decode)
  }

  // ---------------------------------------------------------------- create

  /** The body create posts: the configured arguments, the kind's node type and no node ID. */
  function CreateBody(kind: Kind, a: Args): NodeBody
  {
    NodeBody(a.name, kind.nodeType, a.computeId, "", a.x, a.y)
  }

  /** The node ID a create response yields: exactly 201, a decodable body and a non-empty node_id. */
  function CreatedNodeId(post: Reply): (n: Option<string>)
    ensures n.Some? <==>
      (post.Response? && post.status == CREATED && DecodeNode(post.body).Ok? &&
       DecodeNode(post.body).value.nodeId != "")
    ensures n.Some? ==> n.value == DecodeNode(post.body).value.nodeId
  {
    if Expect(post, {CREATED}).Some? then None
    else match DecodeNode(post.body)
      case Err(_) => None
      case Ok(node) => if node.nodeId == "" then None else Some(node.nodeId)
  }

  function CreateEffect(kind: Kind, id: string, attrs: map<string, Value>, projectId: string, a: Args,
                        post: Reply): (r: Effect)
    ensures r.trace == [PostNode(projectId, Marshal(CreateBody(kind, a)))]
    // success exactly when a node ID came back; it becomes the identity and the kind's ID attribute
    ensures r.err.None? <==> CreatedNodeId(post).Some?
    ensures r.err.None? ==> r.id == CreatedNodeId(post).value && r.attrs == attrs[kind.idAttr := Str(r.id)]
    // any failure stores nothing
    ensures r.err.Some? ==> r.id == id && r.attrs == attrs
    ensures Expect(post, {CREATED}).Some? ==> r.err == Expect(post, {CREATED})
    ensures post.Response? && post.status == CREATED && DecodeNode(post.body).Ok? && r.err.Some? ==>
      r.err == Some(MissingId)
  {
    var t := [PostNode(projectId, Marshal(CreateBody(kind, a)))];
    match Expect(post, {CREATED})
    case Some(e) => Effect(t, Some(e), id, attrs)
    case None =>
      match DecodeNode(post.body)
      case Err(e) => Effect(t, Some(e), id, attrs)
      case Ok(node) =>
        if node.nodeId == "" then Effect(t, Some(MissingId), id, attrs)
        else Effect(t, None, node.nodeId, attrs[kind.idAttr := Str(node.nodeId)])
  }

  method Create(d: ResourceData, kind: Kind, projectId: string, a: Args, post: Reply)
    returns (err: Option<Error>, trace: seq<Request>)
    modifies d
    ensures Effect(trace, err, d.id, d.attrs) == CreateEffect(kind, old(d.id), old(d.attrs), projectId, a, post)
  {
    var payload := Marshal(CreateBody(kind, a));
    trace := [PostNode(projectId, payload)];
    if post.TransportFault? {
      return Some(Transport), trace;
    }
    if post.status != CREATED {
      return Some(Rejected(post.status)), trace;
    }
    var created := DecodeNode(post.body);
    if created.Err? {
      return Some(Decode), trace;
    }
    if created.value.nodeId == "" {
      return Some(MissingId), trace;
    }
    d.id := created.value.nodeId;
    d.attrs := d.attrs[kind.idAttr := Str(created.value.nodeId)];
    err := None;
  }

  // ---------------------------------------------------------------- read

  function ReadEffect(id: string, attrs: map<string, Value>, projectId: string, reply: Reply): (r: Effect)
    ensures r.trace == [GetNode(projectId, id)] && r.attrs == attrs
    // 404 clears the identity and succeeds; 200 succeeds and changes nothing; anything else fails
    ensures r.err.None? <==> reply.Response? && (reply.status == NOT_FOUND || reply.status == OK)
    ensures r.id == if reply.Response? && reply.status == NOT_FOUND then "" else id
    ensures r.err.Some? ==> r.err == Expect(reply, {OK})
  {
    var t := [GetNode(projectId, id)];
    match reply
    case TransportFault => Effect(t, Some(Transport), id, attrs)
    case Response(status, _) =>
      if status == NOT_FOUND then Effect(t, None, "", attrs)
      else Effect(t, Expect(reply, {OK}), id, attrs)
  }

  method Read(d: ResourceData, projectId: string, reply: Reply) returns (err: Option<Error>, trace: seq<Request>)
    modifies d
    ensures Effect(trace, err, d.id, d.attrs) == ReadEffect(old(d.id), old(d.attrs), projectId, reply)
  {
    trace := [GetNode(projectId, d.id)];
    if reply.TransportFault? {
      return Some(Transport), trace;
    }
    if reply.status == NOT_FOUND {
      d.id := "";
      return None, trace;
    }
    if reply.status != OK {
      return Some(Rejected(reply.status)), trace;
    }
    err := None;
  }

  // ---------------------------------------------------------------- update

  const UpdateKeys: set<string> := {"name", "compute_id", "x", "y"}

  function UpdateField(c: Changes, key: string): Option<Value>
  {
    if key == "name" then (if c.name.Changed? then Some(Str(c.name.to)) else None)
    else if key == "compute_id" then (if c.computeId.Changed? then Some(Str(c.computeId.to)) else None)
    else if key == "x" then (if c.x.Changed? then Some(Num(c.x.to)) else None)
    else if key == "y" then (if c.y.Changed? then Some(Num(c.y.to)) else None)
    else None
  }

  /** The update body: exactly the changed keys, with their new values. */
  function UpdateData(c: Changes): (data: Record)
    ensures data.Keys <= UpdateKeys
    ensures "name" in data <==> c.name.Changed?
    ensures "compute_id" in data <==> c.computeId.Changed?
    ensures "x" in data <==> c.x.Changed?
    ensures "y" in data <==> c.y.Changed?
    ensures c.name.Changed? ==> data["name"] == Str(c.name.to)
    ensures c.computeId.Changed? ==> data["compute_id"] == Str(c.computeId.to)
    ensures c.x.Changed? ==> data["x"] == Num(c.x.to)
    ensures c.y.Changed? ==> data["y"] == Num(c.y.to)
    // nothing to send exactly when nothing changed
    ensures data == map[] <==> !(c.name.Changed? || c.computeId.Changed? || c.x.Changed? || c.y.Changed?)
  {
    map k | k in UpdateKeys && UpdateField(c, k).Some? :: UpdateField(c, k).value
  }

  /** The update body as update fills it, one changed key at a time. */
  method BuildUpdateData(c: Changes) returns (data: Record)
    ensures data == UpdateData(c)
  {
    data := map[];
    if c.name.Changed? {
      data := data["name" := Str(c.name.to)];
    }
    if c.computeId.Changed? {
      data := data["compute_id" := Str(c.computeId.to)];
    }
    if c.x.Changed? {
      data := data["x" := Num(c.x.to)];
    }
    if c.y.Changed? {
      data := data["y" := Num(c.y.to)];
    }
    assert forall k :: k in data <==> k in UpdateData(c);
  }

  function UpdateEffect(id: string, attrs: map<string, Value>, projectId: string, c: Changes,
                        put: Reply, read: Reply): (r: Effect)
    // nothing changed: no request at all, success
    ensures UpdateData(c) == map[] ==> r == Effect([], None, id, attrs)
    // otherwise one PUT of the changed keys, then a read when it returned 200
    ensures UpdateData(c) != map[] ==> |r.trace| >= 1 && r.trace[0] == PutNode(projectId, id, UpdateData(c))
    ensures UpdateData(c) != map[] && Expect(put, {OK}).Some? ==>
      r == Effect([PutNode(projectId, id, UpdateData(c))], Expect(put, {OK}), id, attrs)
    ensures UpdateData(c) != map[] && Expect(put, {OK}).None? ==>
      r == After([PutNode(projectId, id, UpdateData(c))], ReadEffect(id, attrs, projectId, read))
  {
    var data := UpdateData(c);
    if data == map[] then Effect([], None, id, attrs)
    else
      var t := [PutNode(projectId, id, data)];
      match Expect(put, {OK})
      case Some(e) => Effect(t, Some(e), id, attrs)
      case None => After(t, ReadEffect(id, attrs, projectId, read))
  }

  method Update(d: ResourceData, projectId: string, c: Changes, put: Reply, read: Reply)
    returns (err: Option<Error>, trace: seq<Request>)
    modifies d
    ensures Effect(trace, err, d.id, d.attrs) == UpdateEffect(old(d.id), old(d.attrs), projectId, c, put, read)
  {
    var data := BuildUpdateData(c);
    if |data| == 0 {
      return None, [];
    }
    trace := [PutNode(projectId, d.id, data)];
    if put.TransportFault? {
      return Some(Transport), trace;
    }
    if put.status != OK {
      return Some(Rejected(put.status)), trace;
    }
    var readTrace;
    err, readTrace := Read(d, projectId, read);
    trace := trace + readTrace;
  }

  // ---------------------------------------------------------------- delete

  function DeleteEffect(id: string, attrs: map<string, Value>, projectId: string, reply: Reply): (r: Effect)
    ensures r.trace == [DeleteNode(projectId, id)] && r.attrs == attrs
    // only 204 succeeds and clears the identity; 404 and 200 fail like any other status
    ensures r.err.None? <==> reply.Response? && reply.status == NO_CONTENT
    ensures r.id == if r.err.None? then "" else id
    ensures r.err.Some? ==> r.err == Expect(reply, {NO_CONTENT})
  {
    match Expect(reply, {NO_CONTENT})
    case None => Effect([DeleteNode(projectId, id)], None, "", attrs)
    case Some(e) => Effect([DeleteNode(projectId, id)], Some(e), id, attrs)
  }

  method Delete(d: ResourceData, projectId: string, reply: Reply) returns (err: Option<Error>, trace: seq<Request>)
    modifies d
    ensures Effect(trace, err, d.id, d.attrs) == DeleteEffect(old(d.id), old(d.attrs), projectId, reply)
  {
    trace := [DeleteNode(projectId, d.id)];
    if reply.TransportFault? {
      return Some(Transport), trace;
    }
    if reply.status != NO_CONTENT {
      return Some(Rejected(reply.status)), trace;
    }
    d.id := "";
    err := None;
  }
}
