/** The project resource: the three-step create (controller, compute, open),
    the read with its clearing rules, the name-only update and the delete that
    ignores the status code. */
module Project {
  import opened Base
  import opened Values
  import opened Http
  import opened Api
  import opened Resource

  /** The project struct: the ID is omitted from the JSON when empty. */
  function ProjectBody(name: string, projectId: string): (r: Record)
    ensures "name" in r && r["name"] == Str(name)
    ensures "project_id" in r <==> projectId != ""
    ensures r.Keys <= {"name", "project_id"}
  {
    if projectId == "" then map["name" := Str(name)] else map["name" := Str(name), "project_id" := Str(projectId)]
  }

  /** Decoding the project struct back; an absent field keeps its zero value. */
  function ProjectOf(r: Record): Result<(string, string)>
  {
    match (StructString(r, "name"), StructString(r, "project_id"))
    case (Ok(name), Ok(projectId)) => Ok((name, projectId))
    case _ => Err(Decode)
  }

  /** omitempty on the ID loses nothing. */
  lemma ProjectBodyRoundTrip(name: string, projectId: string)
    ensures ProjectOf(ProjectBody(name, projectId)) == Ok((name, projectId))
  {
    assert StructString(ProjectBody(name, projectId), "project_id") == Ok(projectId);
  }

  // ---------------------------------------------------------------- create

  /** Steps 2 and 3 of create, once the identity is stored: the compute POST
      (201 or 200), then the open (200 or 201). Neither touches the identity. */
  function SetupEffect(id: string, attrs: map<string, Value>, name: string, compute: Reply, open: Reply): (r: Effect)
    ensures r.id == id && r.attrs == attrs
    ensures |r.trace| >= 1 && r.trace[0] == PostComputeProject(ProjectBody(name, id))
    // the open is issued exactly when the compute step was accepted
    ensures Expect(compute, {CREATED, OK}).Some? ==>
      r.trace == [PostComputeProject(ProjectBody(name, id))] && r.err == Expect(compute, {CREATED, OK})
    ensures Expect(compute, {CREATED, OK}).None? ==>
      r.trace == [PostComputeProject(ProjectBody(name, id)), OpenProject(id)] && r.err == Expect(open, {OK, CREATED})
  {
    var t := [PostComputeProject(ProjectBody(name, id))];
    match Expect(compute, {CREATED, OK})
    case Some(e) => Effect(t, Some(e), id, attrs)
    case None => Effect(t + [OpenProject(id)], Expect(open, {OK, CREATED}), id, attrs)
  }

  /** The project ID the controller's create response yields: exactly 201, a
      decodable object and a string project_id (possibly empty). */
  function CreatedProjectId(post: Reply): (p: Option<string>)
    ensures p.Some? <==>
      (post.Response? && post.status == CREATED && DecodeRecord(post.body).Ok? &&
       StringAt(DecodeRecord(post.body).value, "project_id").Some?)
    ensures p.Some? ==> p.value == DecodeRecord(post.body).value["project_id"].s
  {
    if Expect(post, {CREATED}).Some? then None
    else match DecodeRecord(post.body)
      case Err(_) => None
      case Ok(m) => StringAt(m, "project_id")
  }

  function CreateEffect(id: string, attrs: map<string, Value>, name: string,
                        post: Reply, compute: Reply, open: Reply): (r: Effect)
    ensures |r.trace| >= 1 && r.trace[0] == PostProject(ProjectBody(name, ""))
    // a controller create that yields no project ID fails before any compute call
    ensures CreatedProjectId(post).None? ==>
      r.trace == [PostProject(ProjectBody(name, ""))] && r.err.Some? && r.id == id && r.attrs == attrs
    // once the ID is known it is stored, and stays stored whatever the later steps answer
    ensures CreatedProjectId(post).Some? ==>
      var pid := CreatedProjectId(post).value;
      r == After([PostProject(ProjectBody(name, ""))],
                 SetupEffect(pid, attrs["project_id" := Str(pid)], name, compute, open))
    ensures CreatedProjectId(post).Some? ==>
      r.id == CreatedProjectId(post).value && r.attrs == attrs["project_id" := Str(r.id)]
    // success needs all three steps accepted
    ensures r.err.None? <==>
      (CreatedProjectId(post).Some? && Expect(compute, {CREATED, OK}).None? && Expect(open, {OK, CREATED}).None?)
  {
    var t := [PostProject(ProjectBody(name, ""))];
    match Expect(post, {CREATED})
    case Some(e) => Effect(t, Some(e), id, attrs)
    case None =>
      match DecodeRecord(post.body)
      case Err(e) => Effect(t, Some(e), id, attrs)
      case Ok(m) =>
        match StringAt(m, "project_id")
        case None => Effect(t, Some(MissingId), id, attrs)
        case Some(pid) => After(t, SetupEffect(pid, attrs["project_id" := Str(pid)], name, compute, open))
  }

  method Create(d: ResourceData, name: string, post: Reply, compute: Reply, open: Reply)
    returns (err: Option<Error>, trace: seq<Request>)
    modifies d
    ensures Effect(trace, err, d.id, d.attrs) == CreateEffect(old(d.id), old(d.attrs), name, post, compute, open)
  {
    trace := [PostProject(ProjectBody(name, ""))];
    if post.TransportFault? {
      return Some(Transport), trace;
    }
    if post.status != CREATED {
      return Some(Rejected(post.status)), trace;
    }
    var decoded := DecodeRecord(post.body);
    if decoded.Err? {
      return Some(Decode), trace;
    }
    var projectId := StringAt(decoded.value, "project_id");
    if projectId.None? {
      return Some(MissingId), trace;
    }
    d.id := projectId.value;
    d.attrs := d.attrs["project_id" := Str(projectId.value)];
    var rest;
    err, rest := Setup(d, name, compute, open);
    trace := trace + rest;
  }

  /** The compute POST and the open, for the project already stored in `d`. */
  method Setup(d: ResourceData, name: string, compute: Reply, open: Reply) returns (err: Option<Error>, trace: seq<Request>)
    ensures Effect(trace, err, d.id, d.attrs) == SetupEffect(d.id, d.attrs, name, compute, open)
  {
    var projectId := d.id;
    trace := [PostComputeProject(ProjectBody(name, projectId))];
    if compute.TransportFault? {
      return Some(Transport), trace;
    }
    if compute.status != CREATED && compute.status != OK {
      return Some(Rejected(compute.status)), trace;
    }
    trace := trace + [OpenProject(projectId)];
    if open.TransportFault? {
      return Some(Transport), trace;
    }
    if open.status != OK && open.status != CREATED {
      return Some(Rejected(open.status)), trace;
    }
    err := None;
  }

  // ---------------------------------------------------------------- read

  /** A fetched project whose project_id is absent or null means the project is gone. */
  predicate Gone(project: Record)
  {
    Lookup(project, "project_id").Null?
  }

  /** A 200 whose body decodes to an object. */
  predicate Fetched(reply: Reply)
  {
    reply.Response? && reply.status == OK && DecodeRecord(reply.body).Ok?
  }

  function ReadEffect(id: string, attrs: map<string, Value>, reply: Reply): (r: Effect)
    // no identity: no request, success
    ensures id == "" ==> r == Effect([], None, id, attrs)
    ensures id != "" ==> r.trace == [GetProject(id)]
    // 404, or a 200 body without project_id: the identity is cleared, success
    ensures id != "" && reply.Response? && reply.status == NOT_FOUND ==> r == Effect(r.trace, None, "", attrs)
    ensures id != "" && Fetched(reply) && Gone(DecodeRecord(reply.body).value) ==>
      r == Effect(r.trace, None, "", attrs)
    // otherwise name and project_id are copied from the body
    ensures id != "" && Fetched(reply) && !Gone(DecodeRecord(reply.body).value) ==>
      var p := DecodeRecord(reply.body).value;
      r == Effect(r.trace, None, id, attrs["name" := Lookup(p, "name")]["project_id" := p["project_id"]])
    // any other status but 200 is an error that changes nothing
    ensures id != "" && reply.Response? && reply.status != NOT_FOUND && reply.status != OK ==>
      r == Effect(r.trace, Some(Rejected(reply.status)), id, attrs)
    // a transport fault, or a 200 whose body does not decode, is an error that changes nothing
    ensures id != "" && reply.TransportFault? ==> r == Effect(r.trace, Some(Transport), id, attrs)
    ensures id != "" && reply.Response? && reply.status == OK && DecodeRecord(reply.body).Err? ==>
      r == Effect(r.trace, Some(Decode), id, attrs)
    ensures r.err.Some? ==> r.id == id && r.attrs == attrs
  {
    if id == "" then Effect([], None, id, attrs)
    else
      var t := [GetProject(id)];
      match reply
      case TransportFault => Effect(t, Some(Transport), id, attrs)
      case Response(status, body) =>
        if status == NOT_FOUND then Effect(t, None, "", attrs)
        else if status != OK then Effect(t, Some(Rejected(status)), id, attrs)
        else match DecodeRecord(body)
          case Err(e) => Effect(t, Some(e), id, attrs)
          case Ok(p) =>
            if Gone(p) then Effect(t, None, "", attrs)
            else Effect(t, None, id, attrs["name" := Lookup(p, "name")]["project_id" := p["project_id"]])
  }

  method Read(d: ResourceData, reply: Reply) returns (err: Option<Error>, trace: seq<Request>)
    modifies d
    ensures Effect(trace, err, d.id, d.attrs) == ReadEffect(old(d.id), old(d.attrs), reply)
  {
    if d.id == "" {
      return None, [];
    }
    trace := [GetProject(d.id)];
    if reply.TransportFault? {
      return Some(Transport), trace;
    }
    if reply.status == NOT_FOUND {
      d.id := "";
      return None, trace;
    }
    if reply.status != OK {
      return Some(Rejected(reply.status)), trace;
    }
    var decoded := DecodeRecord(reply.body);
    if decoded.Err? {
      return Some(Decode), trace;
    }
    var project := decoded.value;
    if Lookup(project, "project_id") == Null {
      d.id := "";
      return None, trace;
    }
    d.attrs := d.attrs["name" := Lookup(project, "name")];
    d.attrs := d.attrs["project_id" := project["project_id"]];
    err := None;
  }

  // ---------------------------------------------------------------- update

  function UpdateEffect(id: string, attrs: map<string, Value>, name: Change<string>, put: Reply, read: Reply): (r: Effect)
    // name unchanged: exactly a read
    ensures name.Unchanged? ==> r == ReadEffect(id, attrs, read)
    // name changed: a PUT of the new name alone; a rejected PUT ends the update, otherwise a read follows
    ensures name.Changed? && Expect(put, {OK}).Some? ==>
      r == Effect([PutProject(id, map["name" := Str(name.to)])], Expect(put, {OK}), id, attrs)
    ensures name.Changed? && Expect(put, {OK}).None? ==>
      r == After([PutProject(id, map["name" := Str(name.to)])], ReadEffect(id, attrs, read))
  {
    match name
    case Unchanged => ReadEffect(id, attrs, read)
    case Changed(newName) =>
      var t := [PutProject(id, map["name" := Str(newName)])];
      match Expect(put, {OK})
      case Some(e) => Effect(t, Some(e), id, attrs)
      case None => After(t, ReadEffect(id, attrs, read))
  }

  method Update(d: ResourceData, name: Change<string>, put: Reply, read: Reply)
    returns (err: Option<Error>, trace: seq<Request>)
    modifies d
    ensures Effect(trace, err, d.id, d.attrs) == UpdateEffect(old(d.id), old(d.attrs), name, put, read)
  {
    trace := [];
    if name.Changed? {
      trace := [PutProject(d.id, map["name" := Str(name.to)])];
      if put.TransportFault? {
        return Some(Transport), trace;
      }
      if put.status != OK {
        return Some(Rejected(put.status)), trace;
      }
    }
    var readTrace;
    err, readTrace := Read(d, read);
    trace := trace + readTrace;
  }

  // ---------------------------------------------------------------- delete

  function DeleteEffect(id: string, attrs: map<string, Value>, reply: Reply): (r: Effect)
    ensures r.trace == [DeleteProject(id)] && r.attrs == attrs
    // whatever the status, a completed request clears the identity; only a transport fault fails
    ensures r.err.None? <==> reply.Response?
    ensures r.err.Some? ==> r.err == Some(Transport)
    ensures r.id == if reply.Response? then "" else id
  {
    if reply.TransportFault? then Effect([DeleteProject(id)], Some(Transport), id, attrs)
    else Effect([DeleteProject(id)], None, "", attrs)
  }

  method Delete(d: ResourceData, reply: Reply) returns (err: Option<Error>, trace: seq<Request>)
    modifies d
    ensures Effect(trace, err, d.id, d.attrs) == DeleteEffect(old(d.id), old(d.attrs), reply)
  {
    trace := [DeleteProject(d.id)];
    if reply.TransportFault? {
      return Some(Transport), trace;
    }
    d.id := "";
    err := None;
  }
}
