/** The link-ID data source: the first listed link of a project that has the
    requested name and a non-empty link_id; a name match without one is skipped. */
module LinkIdSource {
  import opened Base
  import opened Values
  import opened Http
  import opened Api
  import opened Resource

  /** A link the search accepts: its name is that string and its link_id a non-empty string. */
  predicate Usable(link: Record, name: string)
  {
    StringAt(link, "name") == Some(name) && StringAt(link, "link_id").Some? && link["link_id"].s != ""
  }

  /** The position of the first usable link. */
  function FirstUsable(links: seq<Record>, name: string): (r: Option<nat>)
    ensures r.Some? ==> r.value < |links| && Usable(links[r.value], name)
    ensures r.Some? ==> forall j :: 0 <= j < r.value ==> !Usable(links[j], name)
    ensures r.None? <==> forall j :: 0 <= j < |links| ==> !Usable(links[j], name)
  {
    if links == [] then None
    else if Usable(links[0], name) then Some(0)
    else match FirstUsable(links[1..], name)
      case None => None
      case Some(k) => Some(k + 1)
  }

  /** A link of the right name but without a usable link_id does not stop the
      search: the result is that of the links after it. */
  lemma SkipsUnusable(link: Record, links: seq<Record>, name: string)
    requires StringAt(link, "name") == Some(name) && !Usable(link, name)
    ensures FirstUsable([link] + links, name) ==
      match FirstUsable(links, name) case None => None case Some(k) => Some(k + 1)
  {
    assert ([link] + links)[1..] == links;
  }

  function ReadEffect(id: string, attrs: map<string, Value>, projectId: string, name: string, reply: Reply): (r: Effect)
    ensures r.trace == [ListControllerLinks(projectId)]
    ensures Expect(reply, {OK}).Some? ==> r == Effect(r.trace, Expect(reply, {OK}), id, attrs)
    ensures Expect(reply, {OK}).None? && DecodeRecordList(reply.body).Err? ==> r == Effect(r.trace, Some(Decode), id, attrs)
    // no usable link of that name: an error naming the link and the project
    ensures (Expect(reply, {OK}).None? && DecodeRecordList(reply.body).Ok? &&
             FirstUsable(DecodeRecordList(reply.body).value, name).None?) ==>
      r == Effect(r.trace, Some(NoMatch(name, projectId)), id, attrs)
    // the first usable link's ID becomes the identity and link_id
    ensures (Expect(reply, {OK}).None? && DecodeRecordList(reply.body).Ok? &&
             FirstUsable(DecodeRecordList(reply.body).value, name).Some?) ==>
      var links := DecodeRecordList(reply.body).value;
      var linkId := links[FirstUsable(links, name).value]["link_id"].s;
      linkId != "" && r == Effect(r.trace, None, linkId, attrs["link_id" := Str(linkId)])
  {
    var t := [ListControllerLinks(projectId)];
    match Expect(reply, {OK})
    case Some(e) => Effect(t, Some(e), id, attrs)
    case None =>
      match DecodeRecordList(reply.body)
      case Err(e) => Effect(t, Some(e), id, attrs)
      case Ok(links) =>
        match FirstUsable(links, name)
        case None => Effect(t, Some(NoMatch(name, projectId)), id, attrs)
        case Some(i) =>
          var linkId := links[i]["link_id"].s;
          Effect(t, None, linkId, attrs["link_id" := Str(linkId)])
  }

  method Read(d: ResourceData, projectId: string, name: string, reply: Reply) returns (err: Option<Error>, trace: seq<Request>)
    modifies d
    ensures Effect(trace, err, d.id, d.attrs) == ReadEffect(old(d.id), old(d.attrs), projectId, name, reply)
  {
    trace := [ListControllerLinks(projectId)];
    if reply.TransportFault? {
      return Some(Transport), trace;
    }
    if reply.status != OK {
      return Some(Rejected(reply.status)), trace;
    }
    var decoded := DecodeRecordList(reply.body);
    if decoded.Err? {
      return Some(Decode), trace;
    }
    var links := decoded.value;
    var found := Search(links, name);
    if found.None? {
      return Some(NoMatch(name, projectId)), trace;
    }
    var linkId := links[found.value]["link_id"].s;
    d.id := linkId;
    d.attrs := d.attrs["link_id" := Str(linkId)];
    return None, trace;
  }

  /** The search loop over the decoded links: it stops at the first usable one. */
  method Search(links: seq<Record>, name: string) returns (found: Option<nat>)
    ensures found == FirstUsable(links, name)
  {
    var i := 0;
    while i < |links|
      invariant 0 <= i <= |links|
      invariant forall j :: 0 <= j < i ==> !Usable(links[j], name)
    {
      var linkName := StringAt(links[i], "name");
      if linkName.Some? && linkName.value == name {
        var linkId := StringAt(links[i], "link_id");
        if linkId.Some? && linkId.value != "" {
          return Some(i);
        }
      }
      i := i + 1;
    }
    return None;
  }
}
