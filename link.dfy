/** The link resource: the readiness poller that waits for an endpoint node to
    be listed, the two-endpoint create, read, update, delete and the import-ID
    parser. */
module Link {
  import opened Base
  import opened Values
  import opened Http
  import opened Api
  import opened Resource
  import Text

  /** One end of a link: a node and the adapter and port on it. */
  datatype Endpoint = Endpoint(nodeId: string, adapter: int, port: int)

  /** Identifiers recovered from an import ID. */
  datatype LinkRef = LinkRef(projectId: string, linkId: string)

  // ---------------------------------------------------------------- poller

  /** The poller gives up after this many listings. */
  const MaxAttempts: nat := 10

  /** What one listing tells the poller. */
  datatype Probe = Found | Missing | Abort(cause: Error)

  /** Some record of the listing has a string node_id equal to the target. */
  predicate Lists(nodes: seq<Record>, nodeId: string)
  {
    exists i :: 0 <= i < |nodes| && StringAt(nodes[i], "node_id") == Some(nodeId)
  }

  /** One listing: a transport fault, an unreadable body or a body that is not
      a list of objects aborts; the status code is never looked at. */
  function ProbeReply(reply: Reply, nodeId: string): (p: Probe)
    ensures reply.TransportFault? ==> p == Abort(Transport)
    ensures reply.Response? && reply.body.Unreadable? ==> p == Abort(BodyRead)
    ensures reply.Response? && !reply.body.Unreadable? && DecodeRecordList(reply.body).Err? ==> p == Abort(Decode)
    ensures p.Found? <==> reply.Response? && DecodeRecordList(reply.body).Ok? && Lists(DecodeRecordList(reply.body).value, nodeId)
    ensures p.Missing? <==> reply.Response? && DecodeRecordList(reply.body).Ok? && !Lists(DecodeRecordList(reply.body).value, nodeId)
  {
    match reply
    case TransportFault => Abort(Transport)
    case Response(_, body) =>
      if body.Unreadable? then Abort(BodyRead)
      else match DecodeRecordList(body)
        case Err(e) => Abort(e)
        case Ok(nodes) => if Lists(nodes, nodeId) then Found else Missing
  }

  /** The outcome of polling: the error (None once the node is listed) and how
      many listings were requested. */
  datatype PollOutcome = PollOutcome(err: Option<Error>, attempts: nat)

  /** Polling from the i-th attempt on, against the scripted listing replies. */
  function PollFrom(replies: seq<Reply>, nodeId: string, i: nat): (r: PollOutcome)
    requires i < MaxAttempts
    decreases MaxAttempts - i
    ensures 1 <= r.attempts <= MaxAttempts - i
    // every listing before the last one lacked the node
    ensures forall j :: i <= j < i + r.attempts - 1 ==> ProbeReply(At(replies, j), nodeId).Missing?
    // the last listing decides: found, aborted, or the tenth without the node
    ensures var last := ProbeReply(At(replies, i + r.attempts - 1), nodeId);
      (last.Found? <==> r.err.None?) &&
      (last.Abort? ==> r.err == Some(last.cause)) &&
      (last.Missing? ==> i + r.attempts == MaxAttempts && r.err == Some(PollExhausted(nodeId)))
  {
    match ProbeReply(At(replies, i), nodeId)
    case Found => PollOutcome(None, 1)
    case Abort(e) => PollOutcome(Some(e), 1)
    case Missing =>
      if i + 1 == MaxAttempts then PollOutcome(Some(PollExhausted(nodeId)), 1)
      else
        var rest := PollFrom(replies, nodeId, i + 1);
        PollOutcome(rest.err, rest.attempts + 1)
  }

  /** The whole poll. */
  function Poll(replies: seq<Reply>, nodeId: string): PollOutcome
  {
    PollFrom(replies, nodeId, 0)
  }

  /** Listings that all lack the node only move the poll along. */
  lemma {:induction false} PollSkip(replies: seq<Reply>, nodeId: string, i: nat)
    requires i < MaxAttempts
    requires forall j :: 0 <= j < i ==> ProbeReply(At(replies, j), nodeId).Missing?
    ensures Poll(replies, nodeId).err == PollFrom(replies, nodeId, i).err
    ensures Poll(replies, nodeId).attempts == i + PollFrom(replies, nodeId, i).attempts
  {
    if i > 0 {
      PollSkip(replies, nodeId, i - 1);
      assert ProbeReply(At(replies, i - 1), nodeId).Missing?;
    }
  }

  /** The poll stops at the first listing that shows the node, after exactly
      that many requests, provided no earlier listing aborted. */
  lemma {:induction false} PollFindsFirst(replies: seq<Reply>, nodeId: string, j: nat)
    requires j < MaxAttempts
    requires forall k :: 0 <= k < j ==> ProbeReply(At(replies, k), nodeId).Missing?
    requires ProbeReply(At(replies, j), nodeId).Found?
    ensures Poll(replies, nodeId) == PollOutcome(None, j + 1)
  {
    PollSkip(replies, nodeId, j);
  }

  /** Ten listings without the node exhaust the poll with an error naming it. */
  lemma {:induction false} PollExhausts(replies: seq<Reply>, nodeId: string)
    requires forall k :: 0 <= k < MaxAttempts ==> ProbeReply(At(replies, k), nodeId).Missing?
    ensures Poll(replies, nodeId) == PollOutcome(Some(PollExhausted(nodeId)), MaxAttempts)
  {
    PollSkip(replies, nodeId, MaxAttempts - 1);
  }

  /** `n` listings of the project's nodes. */
  function Listings(projectId: string, n: nat): (t: seq<Request>)
    ensures |t| == n && forall i :: 0 <= i < n ==> t[i] == ListNodes(projectId)
  {
    seq(n, _ => ListNodes(projectId))
  }

  /** The scan of one listing for a record whose node_id is the target. */
  method ScanForNode(nodes: seq<Record>, nodeId: string) returns (found: bool)
    ensures found <==> Lists(nodes, nodeId)
  {
    var i := 0;
    while i < |nodes|
      invariant 0 <= i <= |nodes|
      invariant forall k :: 0 <= k < i ==> StringAt(nodes[k], "node_id") != Some(nodeId)
    {
      var id := StringAt(nodes[i], "node_id");
      if id.Some? && id.value == nodeId {
        return true;
      }
      i := i + 1;
    }
    return false;
  }

  /** One listing as the poller handles it: the transport, the body read, the
      decoding and the scan, each of the first three aborting on failure. */
  method ProbeListing(reply: Reply, nodeId: string) returns (p: Probe)
    ensures p == ProbeReply(reply, nodeId)
  {
    if reply.TransportFault? {
      return Abort(Transport);
    }
    if reply.body.Unreadable? {
      return Abort(BodyRead);
    }
    var decoded := DecodeRecordList(reply.body);
    if decoded.Err? {
      return Abort(Decode);
    }
    var found := ScanForNode(decoded.value, nodeId);
    p := if found then Found else Missing;
  }

  /** The readiness poller: at most ten listings, stopping at the first that
      shows the node and aborting on the first that cannot be read. */
  method WaitForNode(projectId: string, nodeId: string, replies: seq<Reply>)
    returns (err: Option<Error>, trace: seq<Request>)
    ensures err == Poll(replies, nodeId).err
    ensures trace == Listings(projectId, Poll(replies, nodeId).attempts)
  {
    var i := 0;
    trace := [];
    while i < MaxAttempts
      invariant 0 <= i <= MaxAttempts
      invariant trace == Listings(projectId, i)
      invariant forall j :: 0 <= j < i ==> ProbeReply(At(replies, j), nodeId).Missing?
    {
      trace := trace + [ListNodes(projectId)];
      var probe := ProbeListing(At(replies, i), nodeId);
      if probe.Found? {
        PollSkip(replies, nodeId, i);
        return None, trace;
      }
      if probe.Abort? {
        PollSkip(replies, nodeId, i);
        return Some(probe.cause), trace;
      }
      i := i + 1;
    }
    PollExhausts(replies, nodeId);
    return Some(PollExhausted(nodeId)), trace;
  }

  // ---------------------------------------------------------------- payload

  function EndpointValue(e: Endpoint): Value
  {
    Obj(map["node_id" := Str(e.nodeId), "adapter_number" := Num(e.adapter), "port_number" := Num(e.port)])
  }

  /** The link body create and update send: `nodes` is endpoint A then endpoint
      B; the link ID is empty and so left out. */
  function LinkPayload(a: Endpoint, b: Endpoint): Value
  {
    Obj(map["nodes" := Arr([EndpointValue(a), EndpointValue(b)])])
  }

  /** Reading an endpoint back from the body. */
  function EndpointOf(v: Value): Option<Endpoint>
  {
    if v.Obj? && StringAt(v.fields, "node_id").Some?
       && "adapter_number" in v.fields && v.fields["adapter_number"].Num?
       && "port_number" in v.fields && v.fields["port_number"].Num?
    then Some(Endpoint(v.fields["node_id"].s, v.fields["adapter_number"].n, v.fields["port_number"].n))
    else None
  }

  /** Reading both endpoints of a link body back, in order. */
  function EndpointsOf(v: Value): Option<(Endpoint, Endpoint)>
  {
    if v.Obj? && "nodes" in v.fields && v.fields["nodes"].Arr? && |v.fields["nodes"].items| == 2
       && EndpointOf(v.fields["nodes"].items[0]).Some? && EndpointOf(v.fields["nodes"].items[1]).Some?
    then Some((EndpointOf(v.fields["nodes"].items[0]).value, EndpointOf(v.fields["nodes"].items[1]).value))
    else None
  }

  /** The body carries exactly the two endpoints, A first. */
  lemma PayloadRoundTrip(a: Endpoint, b: Endpoint)
    ensures EndpointsOf(LinkPayload(a, b)) == Some((a, b))
  {
    var v := LinkPayload(a, b);
    assert v.fields["nodes"].items[0] == EndpointValue(a);
    assert v.fields["nodes"].items[1] == EndpointValue(b);
  }

  /** The link ID of a create response decoded into the Link struct: a missing
      or null link_id leaves it empty. */
  function DecodeLinkId(b: Body): (r: Result<string>)
    ensures r.Err? ==> r.error == Decode
    // only null, or an object whose link_id is a string, null or absent, decodes
    ensures r.Ok? <==> b.Json? && (b.value.Null? || (b.value.Obj? && (Lookup(b.value.fields, "link_id").Str? || Lookup(b.value.fields, "link_id").Null?)))
    ensures b.Json? && b.value.Obj? && "link_id" in b.value.fields && b.value.fields["link_id"].Str? ==>
      r == Ok(b.value.fields["link_id"].s)
    // a null body or a missing or null link_id leaves the link ID empty
    ensures b == Json(Null) ==> r == Ok("")
    ensures b.Json? && b.value.Obj? && Lookup(b.value.fields, "link_id").Null? ==> r == Ok("")
  {
    match b
    case Json(Obj(m)) => StructString(m, "link_id")
    case Json(Null) => Ok("")
    case _ => Err(Decode)
  }

  // ---------------------------------------------------------------- create

  /** The POST that follows two successful polls: only 201 is accepted, and the
      returned link_id becomes both the identity and the link_id attribute. */
  function PostEffect(id: string, attrs: map<string, Value>, projectId: string, a: Endpoint, b: Endpoint,
                      post: Reply): (r: Effect)
    ensures r.trace == [PostLink(projectId, LinkPayload(a, b))]
    ensures r.err.None? <==> post.Response? && post.status == CREATED && DecodeLinkId(post.body).Ok?
    ensures r.err.None? ==> r.id == DecodeLinkId(post.body).value && r.attrs == attrs["link_id" := Str(r.id)]
    ensures r.err.Some? ==> r.id == id && r.attrs == attrs
    ensures Expect(post, {CREATED}).Some? ==> r.err == Expect(post, {CREATED})
  {
    var t := [PostLink(projectId, LinkPayload(a, b))];
    match Expect(post, {CREATED})
    case Some(e) => Effect(t, Some(e), id, attrs)
    case None =>
      match DecodeLinkId(post.body)
      case Err(e) => Effect(t, Some(e), id, attrs)
      case Ok(linkId) => Effect(t, None, linkId, attrs["link_id" := Str(linkId)])
  }

  /** What follows once endpoint A is listed after `listedA` listings: B is
      polled, and the POST is issued only when B is listed too. */
  function AfterReadyA(id: string, attrs: map<string, Value>, projectId: string, a: Endpoint, b: Endpoint,
                       listedA: nat, pollB: seq<Reply>, post: Reply): (r: Effect)
    ensures Poll(pollB, b.nodeId).err.Some? ==>
      r == Effect(Listings(projectId, listedA + Poll(pollB, b.nodeId).attempts),
                  Some(EndpointNotReady(B, Poll(pollB, b.nodeId).err.value)), id, attrs)
    ensures Poll(pollB, b.nodeId).err.None? ==>
      r == After(Listings(projectId, listedA + Poll(pollB, b.nodeId).attempts),
                 PostEffect(id, attrs, projectId, a, b, post))
  {
    var pb := Poll(pollB, b.nodeId);
    var polled := Listings(projectId, listedA + pb.attempts);
    if pb.err.Some? then Effect(polled, Some(EndpointNotReady(B, pb.err.value)), id, attrs)
    else After(polled, PostEffect(id, attrs, projectId, a, b, post))
  }

  /** Create: endpoint A is polled, then endpoint B, then the link is posted. */
  function CreateEffect(id: string, attrs: map<string, Value>, projectId: string, a: Endpoint, b: Endpoint,
                        pollA: seq<Reply>, pollB: seq<Reply>, post: Reply): (r: Effect)
    // when A is not ready, B is not polled and nothing is posted
    ensures Poll(pollA, a.nodeId).err.Some? ==>
      r == Effect(Listings(projectId, Poll(pollA, a.nodeId).attempts),
                  Some(EndpointNotReady(A, Poll(pollA, a.nodeId).err.value)), id, attrs)
    ensures Poll(pollA, a.nodeId).err.None? ==>
      r == AfterReadyA(id, attrs, projectId, a, b, Poll(pollA, a.nodeId).attempts, pollB, post)
    ensures r.err.Some? ==> r.id == id && r.attrs == attrs
  {
    var pa := Poll(pollA, a.nodeId);
    if pa.err.Some? then
      Effect(Listings(projectId, pa.attempts), Some(EndpointNotReady(A, pa.err.value)), id, attrs)
    else AfterReadyA(id, attrs, projectId, a, b, pa.attempts, pollB, post)
  }

  /** Listings are GET requests, so no POST is among them. */
  lemma ListingsHoldNoPost(projectId: string, n: nat, req: Request)
    requires req.verb == POST
    ensures req !in Listings(projectId, n)
  {
  }

  /** A link is posted exactly when both endpoints were listed in time. */
  lemma PostOnlyWhenBothReady(id: string, attrs: map<string, Value>, projectId: string, a: Endpoint, b: Endpoint,
                              pollA: seq<Reply>, pollB: seq<Reply>, post: Reply)
    ensures PostLink(projectId, LinkPayload(a, b)) in CreateEffect(id, attrs, projectId, a, b, pollA, pollB, post).trace
      <==> Poll(pollA, a.nodeId).err.None? && Poll(pollB, b.nodeId).err.None?
  {
    var req := PostLink(projectId, LinkPayload(a, b));
    var pa := Poll(pollA, a.nodeId);
    var pb := Poll(pollB, b.nodeId);
    var r := CreateEffect(id, attrs, projectId, a, b, pollA, pollB, post);
    if pa.err.Some? {
      ListingsHoldNoPost(projectId, pa.attempts, req);
    } else {
      var polled := Listings(projectId, pa.attempts + pb.attempts);
      ListingsHoldNoPost(projectId, pa.attempts + pb.attempts, req);
      if pb.err.None? {
        assert r.trace == polled + [req];
      }
    }
  }

  /** Two rounds of listings are one longer round. */
  lemma ListingsJoin(projectId: string, m: nat, n: nat)
    ensures Listings(projectId, m) + Listings(projectId, n) == Listings(projectId, m + n)
  {
  }

  method Create(d: ResourceData, projectId: string, a: Endpoint, b: Endpoint,
                pollA: seq<Reply>, pollB: seq<Reply>, post: Reply)
    returns (err: Option<Error>, trace: seq<Request>)
    modifies d
    ensures Effect(trace, err, d.id, d.attrs) == CreateEffect(old(d.id), old(d.attrs), projectId, a, b, pollA, pollB, post)
  {
    var waitErr, traceA := WaitForNode(projectId, a.nodeId, pollA);
    trace := traceA;
    if waitErr.Some? {
      return Some(EndpointNotReady(A, waitErr.value)), trace;
    }
    var traceB;
    waitErr, traceB := WaitForNode(projectId, b.nodeId, pollB);
    ListingsJoin(projectId, |traceA|, |traceB|);
    trace := trace + traceB;
    if waitErr.Some? {
      return Some(EndpointNotReady(B, waitErr.value)), trace;
    }
    var postTrace;
    err, postTrace := Post(d, projectId, a, b, post);
    trace := trace + postTrace;
  }

  /** The POST of the link body and the storing of the returned link ID. */
  method Post(d: ResourceData, projectId: string, a: Endpoint, b: Endpoint, post: Reply)
    returns (err: Option<Error>, trace: seq<Request>)
    modifies d
    ensures Effect(trace, err, d.id, d.attrs) == PostEffect(old(d.id), old(d.attrs), projectId, a, b, post)
  {
    trace := [PostLink(projectId, LinkPayload(a, b))];
    if post.TransportFault? {
      return Some(Transport), trace;
    }
    if post.status != CREATED {
      return Some(Rejected(post.status)), trace;
    }
    var linkId := DecodeLinkId(post.body);
    if linkId.Err? {
      return Some(Decode), trace;
    }
    d.id := linkId.value;
    d.attrs := d.attrs["link_id" := Str(linkId.value)];
    err := None;
  }

  // ---------------------------------------------------------------- read

  function ReadEffect(id: string, attrs: map<string, Value>, projectId: string, reply: Reply): (r: Effect)
    ensures r.trace == [GetLink(projectId, id)] && r.attrs == attrs
    // 404 clears the identity and succeeds; 200 succeeds and changes nothing
    ensures r.err.None? <==> reply.Response? && (reply.status == NOT_FOUND || reply.status == OK)
    ensures r.id == if reply.Response? && reply.status == NOT_FOUND then "" else id
    ensures r.err.Some? ==> r.err == Expect(reply, {OK})
  {
    var t := [GetLink(projectId, id)];
    match reply
    case TransportFault => Effect(t, Some(Transport), id, attrs)
    case Response(status, _) =>
      if status == NOT_FOUND then Effect(t, None, "", attrs)
      else Effect(t, Expect(reply, {OK}), id, attrs)
  }

  method Read(d: ResourceData, projectId: string, reply: Reply) returns (err: Option<Error>, trace: seq<Request>)
    modifies d
    ensures Effect(trace, err, d.id, d.attrs) == ReadEffect(old(d.id), old(d.attrs), projectId, reply)
  {
    trace := [GetLink(projectId, d.id)];
    if reply.TransportFault? {
      return Some(Transport), trace;
    }
    if reply.status == NOT_FOUND {
      d.id := "";
      return None, trace;
    }
    if reply.status != OK {
      return Some(Rejected(reply.status)), trace;
    }
    err := None;
  }

  // ---------------------------------------------------------------- update

  function UpdateEffect(id: string, attrs: map<string, Value>, projectId: string, a: Endpoint, b: Endpoint,
                        put: Reply, read: Reply): (r: Effect)
    ensures |r.trace| >= 1 && r.trace[0] == PutLink(projectId, id, LinkPayload(a, b))
    // a PUT answered with anything but 200 fails and is not followed by a read
    ensures Expect(put, {OK}).Some? ==> r == Effect([r.trace[0]], Expect(put, {OK}), id, attrs)
    ensures Expect(put, {OK}).None? ==> r == After([r.trace[0]], ReadEffect(id, attrs, projectId, read))
  {
    var t := [PutLink(projectId, id, LinkPayload(a, b))];
    match Expect(put, {OK})
    case Some(e) => Effect(t, Some(e), id, attrs)
    case None => After(t, ReadEffect(id, attrs, projectId, read))
  }

  method Update(d: ResourceData, projectId: string, a: Endpoint, b: Endpoint, put: Reply, read: Reply)
    returns (err: Option<Error>, trace: seq<Request>)
    modifies d
    ensures Effect(trace, err, d.id, d.attrs) == UpdateEffect(old(d.id), old(d.attrs), projectId, a, b, put, read)
  {
    trace := [PutLink(projectId, d.id, LinkPayload(a, b))];
    if put.TransportFault? {
      return Some(Transport), trace;
    }
    if put.status != OK {
      return Some(Rejected(put.status)), trace;
    }
    var readTrace;
    err, readTrace := Read(d, projectId, read);
    trace := trace + readTrace;
  }

  // ---------------------------------------------------------------- delete

  function DeleteEffect(id: string, attrs: map<string, Value>, projectId: string, reply: Reply): (r: Effect)
    ensures r.trace == [DeleteLink(projectId, id)] && r.attrs == attrs
    // 404 and 204 clear the identity and succeed; anything else, 200 included, fails
    ensures r.err.None? <==> reply.Response? && (reply.status == NOT_FOUND || reply.status == NO_CONTENT)
    ensures r.id == if r.err.None? then "" else id
    ensures r.err.Some? ==> r.err == Expect(reply, {NO_CONTENT})
  {
    var t := [DeleteLink(projectId, id)];
    match reply
    case TransportFault => Effect(t, Some(Transport), id, attrs)
    case Response(status, _) =>
      if status == NOT_FOUND || status == NO_CONTENT then Effect(t, None, "", attrs)
      else Effect(t, Some(Rejected(status)), id, attrs)
  }

  method Delete(d: ResourceData, projectId: string, reply: Reply) returns (err: Option<Error>, trace: seq<Request>)
    modifies d
    ensures Effect(trace, err, d.id, d.attrs) == DeleteEffect(old(d.id), old(d.attrs), projectId, reply)
  {
    trace := [DeleteLink(projectId, d.id)];
    if reply.TransportFault? {
      return Some(Transport), trace;
    }
    if reply.status == NOT_FOUND {
      d.id := "";
      return None, trace;
    }
    if reply.status != NO_CONTENT {
      return Some(Rejected(reply.status)), trace;
    }
    d.id := "";
    err := None;
  }

  // ---------------------------------------------------------------- import

  /** `<project_id>/<link_id>`, split at the first slash; the link ID may itself hold slashes. */
  function ParseImportId(raw: string): (r: Result<LinkRef>)
    ensures r.Ok? <==> '/' in raw
    ensures r.Ok? ==> raw == r.value.projectId + ['/'] + r.value.linkId && '/' !in r.value.projectId
    ensures r.Err? ==> r.error == BadImportId(raw)
  {
    match Text.Cut(raw, '/')
    case Some((project, link)) => Ok(LinkRef(project, link))
    case None => Err(BadImportId(raw))
  }

  /** Any project ID without a slash round-trips with any link ID. */
  lemma ImportRoundTrip(projectId: string, linkId: string)
    requires '/' !in projectId
    ensures ParseImportId(projectId + ['/'] + linkId) == Ok(LinkRef(projectId, linkId))
  {
    Text.CutJoin(projectId, linkId, '/');
  }

  /** The importer: seeds project_id and makes the link ID the identity. */
  method Import(d: ResourceData) returns (err: Option<Error>)
    modifies d
    ensures ParseImportId(old(d.id)).Err? ==>
      err == Some(ParseImportId(old(d.id)).error) && d.id == old(d.id) && d.attrs == old(d.attrs)
    ensures ParseImportId(old(d.id)).Ok? ==>
      err.None? && d.id == ParseImportId(old(d.id)).value.linkId &&
      d.attrs == old(d.attrs)["project_id" := Str(ParseImportId(old(d.id)).value.projectId)]
  {
    var parsed := ParseImportId(d.id);
    if parsed.Err? {
      return Some(parsed.error);
    }
    d.attrs := d.attrs["project_id" := Str(parsed.value.projectId)];
    d.id := parsed.value.linkId;
    err := None;
  }
}
