/** The node-ID data source: the first node of a project's listing whose name
    is the requested one. */
module NodeIdSource {
  import opened Base
  import opened Values
  import opened Http
  import opened Api
  import opened Resource
  import opened Listing

  /** The match's node_id is read with an unchecked `.(string)`: a listing
      whose first match has none would panic, so callers must exclude it. */
  predicate MatchHasStringId(reply: Reply, name: string)
  {
    (reply.Response? && reply.status == OK && DecodeRecordList(reply.body).Ok? &&
     FirstNamed(DecodeRecordList(reply.body).value, name).Some?) ==>
      StringAt(DecodeRecordList(reply.body).value[FirstNamed(DecodeRecordList(reply.body).value, name).value], "node_id").Some?
  }

  function ReadEffect(id: string, attrs: map<string, Value>, projectId: string, name: string, reply: Reply): (r: Effect)
    requires MatchHasStringId(reply, name)
    ensures r.trace == [ListNodes(projectId)]
    // a listing answered with anything but 200 is an error
    ensures Expect(reply, {OK}).Some? ==> r == Effect(r.trace, Expect(reply, {OK}), id, attrs)
    ensures Expect(reply, {OK}).None? && DecodeRecordList(reply.body).Err? ==> r == Effect(r.trace, Some(Decode), id, attrs)
    // no node of that name: an error naming the node and the project
    ensures (Expect(reply, {OK}).None? && DecodeRecordList(reply.body).Ok? &&
             FirstNamed(DecodeRecordList(reply.body).value, name).None?) ==>
      r == Effect(r.trace, Some(NoMatch(name, projectId)), id, attrs)
    // the first match's node_id becomes both the identity and node_id
    ensures (Expect(reply, {OK}).None? && DecodeRecordList(reply.body).Ok? &&
             FirstNamed(DecodeRecordList(reply.body).value, name).Some?) ==>
      var nodes := DecodeRecordList(reply.body).value;
      var nodeId := nodes[FirstNamed(nodes, name).value]["node_id"].s;
      r == Effect(r.trace, None, nodeId, attrs["node_id" := Str(nodeId)])
  {
    var t := [ListNodes(projectId)];
    match Expect(reply, {OK})
    case Some(e) => Effect(t, Some(e), id, attrs)
    case None =>
      match DecodeRecordList(reply.body)
      case Err(e) => Effect(t, Some(e), id, attrs)
      case Ok(nodes) =>
        match FirstNamed(nodes, name)
        case None => Effect(t, Some(NoMatch(name, projectId)), id, attrs)
        case Some(i) =>
          var nodeId := nodes[i]["node_id"].s;
          Effect(t, None, nodeId, attrs["node_id" := Str(nodeId)])
  }

  method Read(d: ResourceData, projectId: string, name: string, reply: Reply) returns (err: Option<Error>, trace: seq<Request>)
    requires MatchHasStringId(reply, name)
    modifies d
    ensures Effect(trace, err, d.id, d.attrs) == ReadEffect(old(d.id), old(d.attrs), projectId, name, reply)
  {
    trace := [ListNodes(projectId)];
    if reply.TransportFault? {
      return Some(Transport), trace;
    }
    if reply.status != OK {
      return Some(Rejected(reply.status)), trace;
    }
    var decoded := DecodeRecordList(reply.body);
    if decoded.Err? {
      return Some(Decode), trace;
    }
    var nodes := decoded.value;
    var i := 0;
    while i < |nodes|
      invariant 0 <= i <= |nodes|
      invariant forall j :: 0 <= j < i ==> !Named(nodes[j], name)
      invariant d.id == old(d.id) && d.attrs == old(d.attrs)
    {
      if Lookup(nodes[i], "name") == Str(name) {
        assert FirstNamed(nodes, name) == Some(i);
        var nodeId := nodes[i]["node_id"].s;
        d.id := nodeId;
        d.attrs := d.attrs["node_id" := Str(nodeId)];
        return None, trace;
      }
      i := i + 1;
    }
    return Some(NoMatch(name, projectId)), trace;
  }
}
