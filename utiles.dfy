/** The two lookup helpers: the first project's ID and a template's ID by name.
    Neither looks at the status code of the listing. */
module Utiles {
  import opened Base
  import opened Values
  import opened Http

  /** `projects[0]["project_id"].(string)` is unchecked: a non-empty listing
      whose first project has no string project_id would panic. */
  predicate FirstProjectWellTyped(reply: Reply)
  {
    reply.Response? && DecodeRecordList(reply.body).Ok? && |DecodeRecordList(reply.body).value| > 0 ==>
      StringAt(DecodeRecordList(reply.body).value[0], "project_id").Some?
  }

  /** getProjectID: the project_id of the first listed project. */
  function FirstProjectId(reply: Reply): (r: Result<string>)
    requires FirstProjectWellTyped(reply)
    ensures reply.TransportFault? ==> r == Err(Transport)
    ensures reply.Response? && DecodeRecordList(reply.body).Err? ==> r == Err(Decode)
    // an empty listing is an error; otherwise the first project decides, whatever follows it
    ensures reply.Response? && DecodeRecordList(reply.body).Ok? ==>
      var projects := DecodeRecordList(reply.body).value;
      (projects == [] ==> r == Err(NoProjects)) &&
      (projects != [] ==> r == Ok(projects[0]["project_id"].s))
  {
    match reply
    case TransportFault => Err(Transport)
    case Response(_, body) =>
      match DecodeRecordList(body)
      case Err(e) => Err(e)
      case Ok(projects) => if |projects| == 0 then Err(NoProjects) else Ok(projects[0]["project_id"].s)
  }

  /** A template the search accepts: the name matches and it has a string
      template_id or, failing that, a string id. */
  predicate Usable(template: Record, name: string)
  {
    StringAt(template, "name") == Some(name) &&
    (StringAt(template, "template_id").Some? || StringAt(template, "id").Some?)
  }

  /** `template["name"].(string)` is unchecked: every template the search
      reaches, up to the first usable one, must have a string name. */
  predicate NamesWellTyped(templates: seq<Record>, name: string)
    decreases |templates|
  {
    templates == [] ||
    (StringAt(templates[0], "name").Some? && (Usable(templates[0], name) || NamesWellTyped(templates[1..], name)))
  }

  /** The ID a usable template yields: template_id preferred, id as the fallback. */
  function IdOf(template: Record): (id: string)
    requires StringAt(template, "template_id").Some? || StringAt(template, "id").Some?
    ensures StringAt(template, "template_id").Some? ==> id == template["template_id"].s
    ensures StringAt(template, "template_id").None? ==> id == template["id"].s
  {
    match StringAt(template, "template_id")
    case Some(id) => id
    case None => template["id"].s
  }

  /** getTemplateID's search: the ID of the first usable template. */
  function TemplateIdByName(templates: seq<Record>, name: string): (r: Result<string>)
    requires NamesWellTyped(templates, name)
    decreases |templates|
    // found: some template is usable, none before it, and its ID is the result
    ensures r.Ok? ==>
      exists i :: (0 <= i < |templates| && Usable(templates[i], name) &&
                   (forall j :: 0 <= j < i ==> !Usable(templates[j], name)) && r.value == IdOf(templates[i]))
    // not found: no template is usable, and the error names the template
    ensures r.Err? <==> forall j :: 0 <= j < |templates| ==> !Usable(templates[j], name)
    ensures r.Err? ==> r.error == NoSuchTemplate(name)
  {
    if templates == [] then Err(NoSuchTemplate(name))
    else if Usable(templates[0], name) then Ok(IdOf(templates[0]))
    else
      var r := TemplateIdByName(templates[1..], name);
      if r.Ok? then
        var i :| 0 <= i < |templates[1..]| && Usable(templates[1..][i], name) &&
          (forall j :: 0 <= j < i ==> !Usable(templates[1..][j], name)) && r.value == IdOf(templates[1..][i]);
        assert Usable(templates[i + 1], name);
        assert forall j :: 0 <= j < i + 1 ==> !Usable(templates[j], name) by {
          forall j | 0 <= j < i + 1 ensures !Usable(templates[j], name) {
            if j > 0 {
              assert templates[j] == templates[1..][j - 1];
            }
          }
        }
        r
      else
        assert forall j :: 0 <= j < |templates| ==> !Usable(templates[j], name) by {
          forall j | 0 <= j < |templates| ensures !Usable(templates[j], name) {
            if j > 0 {
              assert templates[j] == templates[1..][j - 1];
            }
          }
        }
        r
  }

  /** A name match with neither ID is passed over. */
  lemma {:induction false} SkipsIdless(template: Record, rest: seq<Record>, name: string)
    requires StringAt(template, "name") == Some(name) && !Usable(template, name)
    requires NamesWellTyped(rest, name)
    ensures NamesWellTyped([template] + rest, name)
    ensures TemplateIdByName([template] + rest, name) == TemplateIdByName(rest, name)
  {
    assert ([template] + rest)[1..] == rest;
  }

  /** getTemplateID: the listing decoded, then the search. */
  function TemplateId(reply: Reply, name: string): (r: Result<string>)
    requires reply.Response? && DecodeRecordList(reply.body).Ok? ==>
      NamesWellTyped(DecodeRecordList(reply.body).value, name)
    ensures reply.TransportFault? ==> r == Err(Transport)
    ensures reply.Response? && DecodeRecordList(reply.body).Err? ==> r == Err(Decode)
    ensures reply.Response? && DecodeRecordList(reply.body).Ok? ==>
      r == TemplateIdByName(DecodeRecordList(reply.body).value, name)
  {
    match reply
    case TransportFault => Err(Transport)
    case Response(_, body) =>
      match DecodeRecordList(body)
      case Err(e) => Err(e)
      case Ok(templates) => TemplateIdByName(templates, name)
  }
}
