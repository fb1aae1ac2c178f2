/** The template-ID data source: the first template with the requested name
    decides, and a non-string template_id on it is an error, not a reason to
    look further. */
module TemplateIdSource {
  import opened Base
  import opened Values
  import opened Http
  import opened Api
  import opened Resource
  import opened Listing

  /** The outcome of the search over a decoded template list. */
  function TemplateIdOf(templates: seq<Record>, name: string): (r: Result<string>)
    ensures FirstNamed(templates, name).None? ==> r == Err(NoSuchTemplate(name))
    ensures FirstNamed(templates, name).Some? ==>
      var t := templates[FirstNamed(templates, name).value];
      (StringAt(t, "template_id").Some? ==> r == Ok(t["template_id"].s)) &&
      (StringAt(t, "template_id").None? ==> r == Err(TemplateIdNotString(name)))
  {
    match FirstNamed(templates, name)
    case None => Err(NoSuchTemplate(name))
    case Some(i) =>
      match StringAt(templates[i], "template_id")
      case None => Err(TemplateIdNotString(name))
      case Some(templateId) => Ok(templateId)
  }

  /** Templates after the first name match never change the outcome. */
  lemma DecidedByFirstMatch(templates: seq<Record>, rest: seq<Record>, name: string)
    requires FirstNamed(templates, name).Some?
    ensures TemplateIdOf(templates + rest, name) == TemplateIdOf(templates, name)
  {
    FirstNamedIgnoresRest(templates, rest, name);
    var i := FirstNamed(templates, name).value;
    assert (templates + rest)[i] == templates[i];
  }

  function ReadEffect(id: string, attrs: map<string, Value>, name: string, reply: Reply): (r: Effect)
    ensures r.trace == [ListTemplates()]
    ensures Expect(reply, {OK}).Some? ==> r == Effect(r.trace, Expect(reply, {OK}), id, attrs)
    ensures Expect(reply, {OK}).None? && DecodeRecordList(reply.body).Err? ==> r == Effect(r.trace, Some(Decode), id, attrs)
    // a decoded listing: the search's error, or its ID as identity and template_id
    ensures Expect(reply, {OK}).None? && DecodeRecordList(reply.body).Ok? ==>
      match TemplateIdOf(DecodeRecordList(reply.body).value, name)
      case Err(e) => r == Effect(r.trace, Some(e), id, attrs)
      case Ok(templateId) => r == Effect(r.trace, None, templateId, attrs["template_id" := Str(templateId)])
  {
    var t := [ListTemplates()];
    match Expect(reply, {OK})
    case Some(e) => Effect(t, Some(e), id, attrs)
    case None =>
      match DecodeRecordList(reply.body)
      case Err(e) => Effect(t, Some(e), id, attrs)
      case Ok(templates) =>
        match TemplateIdOf(templates, name)
        case Err(e) => Effect(t, Some(e), id, attrs)
        case Ok(templateId) => Effect(t, None, templateId, attrs["template_id" := Str(templateId)])
  }

  method Read(d: ResourceData, name: string, reply: Reply) returns (err: Option<Error>, trace: seq<Request>)
    modifies d
    ensures Effect(trace, err, d.id, d.attrs) == ReadEffect(old(d.id), old(d.attrs), name, reply)
  {
    trace := [ListTemplates()];
    if reply.TransportFault? {
      return Some(Transport), trace;
    }
    if reply.status != OK {
      return Some(Rejected(reply.status)), trace;
    }
    var decoded := DecodeRecordList(reply.body);
    if decoded.Err? {
      return Some(Decode), trace;
    }
    var templates := decoded.value;
    var i := 0;
    while i < |templates|
      invariant 0 <= i <= |templates|
      invariant forall j :: 0 <= j < i ==> !Named(templates[j], name)
      invariant d.id == old(d.id) && d.attrs == old(d.attrs)
    {
      if Lookup(templates[i], "name") == Str(name) {
        assert FirstNamed(templates, name) == Some(i);
        var templateId := StringAt(templates[i], "template_id");
        if templateId.None? {
          return Some(TemplateIdNotString(name)), trace;
        }
        d.id := templateId.value;
        d.attrs := d.attrs["template_id" := Str(templateId.value)];
        return None, trace;
      }
      i := i + 1;
    }
    return Some(NoSuchTemplate(name)), trace;
  }
}
