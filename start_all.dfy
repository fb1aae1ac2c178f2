/** The start-all action resource: one POST that starts every node of a
    project, an identity derived from the project ID, and an importer. */
module StartAll {
  import opened Base
  import opened Values
  import opened Http
  import opened Api
  import opened Resource

  const Suffix: string := "-start"

  /** The identity of the action for a project. */
  function StartId(projectId: string): (id: string)
    ensures |id| == |projectId| + |Suffix| && id[..|projectId|] == projectId && id[|projectId|..] == Suffix
  {
    projectId + Suffix
  }

  /** The project an identity belongs to, when it has the action's shape. */
  function ProjectOfStartId(id: string): (p: Option<string>)
    ensures p.Some? ==> StartId(p.value) == id
  {
    if |id| >= |Suffix| && id[|id| - |Suffix|..] == Suffix then
      assert id == id[..|id| - |Suffix|] + Suffix;
      Some(id[..|id| - |Suffix|])
    else None
  }

  /** Every project ID is recovered from its action identity. */
  lemma StartIdRoundTrip(projectId: string)
    ensures ProjectOfStartId(StartId(projectId)) == Some(projectId)
  {
    var id := StartId(projectId);
    assert id[|id| - |Suffix|..] == Suffix;
  }

  /** Distinct projects get distinct action identities. */
  lemma StartIdInjective(p: string, q: string)
    requires StartId(p) == StartId(q)
    ensures p == q
  {
    StartIdRoundTrip(p);
    StartIdRoundTrip(q);
  }

  function CreateEffect(id: string, attrs: map<string, Value>, projectId: string, reply: Reply): (r: Effect)
    ensures r.trace == [StartAllNodes(projectId)] && r.attrs == attrs
    // 200 and 204 succeed and set the derived identity; anything else fails and keeps the old one
    ensures r.err.None? <==> reply.Response? && (reply.status == OK || reply.status == NO_CONTENT)
    ensures r.id == if r.err.None? then StartId(projectId) else id
    ensures r.err.Some? ==> r.err == Expect(reply, {OK, NO_CONTENT})
  {
    match Expect(reply, {OK, NO_CONTENT})
    case None => Effect([StartAllNodes(projectId)], None, StartId(projectId), attrs)
    case Some(e) => Effect([StartAllNodes(projectId)], Some(e), id, attrs)
  }

  method Create(d: ResourceData, projectId: string, reply: Reply) returns (err: Option<Error>, trace: seq<Request>)
    modifies d
    ensures Effect(trace, err, d.id, d.attrs) == CreateEffect(old(d.id), old(d.attrs), projectId, reply)
  {
    trace := [StartAllNodes(projectId)];
    if reply.TransportFault? {
      return Some(Transport), trace;
    }
    if reply.status != OK && reply.status != NO_CONTENT {
      return Some(Rejected(reply.status)), trace;
    }
    d.id := StartId(projectId);
    err := None;
  }

  /** Update starts every node again, exactly as create does. */
  method Update(d: ResourceData, projectId: string, reply: Reply) returns (err: Option<Error>, trace: seq<Request>)
    modifies d
    ensures Effect(trace, err, d.id, d.attrs) == CreateEffect(old(d.id), old(d.attrs), projectId, reply)
  {
    err, trace := Create(d, projectId, reply);
  }

  /** Read checks nothing and changes nothing. */
  method Read(d: ResourceData) returns (err: Option<Error>, trace: seq<Request>)
    ensures err.None? && trace == []
  {
    return None, [];
  }

  /** Delete only forgets the action: no request, the identity is cleared. */
  method Delete(d: ResourceData) returns (err: Option<Error>, trace: seq<Request>)
    modifies d
    ensures err.None? && trace == [] && d.id == "" && d.attrs == old(d.attrs)
  {
    d.id := "";
    return None, [];
  }

  /** The importer's reading of a raw ID: any non-empty string is a project ID. */
  function ParseImportId(raw: string): (r: Result<string>)
    ensures r.Ok? <==> raw != ""
    ensures r.Ok? ==> r.value == raw
    ensures r.Err? ==> r.error == BadImportId(raw)
  {
    if raw == "" then Err(BadImportId(raw)) else Ok(raw)
  }

  /** The importer: project_id becomes the raw ID, the identity its action identity. */
  method Import(d: ResourceData) returns (err: Option<Error>)
    modifies d
    ensures old(d.id) == "" ==> err == Some(BadImportId("")) && d.id == old(d.id) && d.attrs == old(d.attrs)
    ensures old(d.id) != "" ==>
      err.None? && d.id == StartId(old(d.id)) && d.attrs == old(d.attrs)["project_id" := Str(old(d.id))]
  {
    var parsed := ParseImportId(d.id);
    if parsed.Err? {
      return Some(parsed.error);
    }
    d.attrs := d.attrs["project_id" := Str(parsed.value)];
    d.id := StartId(parsed.value);
    err := None;
  }

  /** An imported action's identity leads back to the project it was imported from. */
  lemma ImportedIdNamesProject(raw: string)
    requires raw != ""
    ensures ProjectOfStartId(StartId(ParseImportId(raw).value)) == Some(raw)
  {
    StartIdRoundTrip(raw);
  }
}
