/** Outcomes shared by every operation of the provider. */
module Base {

  datatype Option<+T> = None | Some(value: T)

  /** Which endpoint of a link a failure concerns. */
  datatype Side = A | B

  /** The kinds of failure the provider reports; only the identifiers an
      error message names are kept, not its wording. */
  datatype Error =
    | Transport                                  // the HTTP exchange did not complete
    | BodyRead                                   // the response body could not be read
    | Decode                                     // the body is not JSON of the expected shape
    | Rejected(status: int)                      // the controller answered with an unaccepted status
    | MissingId                                  // a success response without the identifier
    | PollExhausted(nodeId: string)              // the node never appeared in the listing
    | EndpointNotReady(side: Side, cause: Error) // waiting for a link endpoint failed
    | NoMatch(name: string, projectId: string)   // no listed node or link has that name
    | NoSuchTemplate(name: string)               // no template has that name
    | TemplateIdNotString(name: string)          // the matching template's template_id is not a string
    | NoProjects                                 // the project listing is empty
    | BadImportId(raw: string)                   // an import ID of the wrong shape

  datatype Result<+T> = Ok(value: T) | Err(error: Error)

  /** A configured argument as the host framework's diff reports it: unchanged,
      or changed to the value `d.Get` now returns. */
  datatype Change<+T> = Unchanged | Changed(to: T)
}

/** Decoded JSON, as Go's encoding/json produces it for `interface{}`. */
module Values {
  import opened Base

  datatype Value =
    | Null
    | Bool(b: bool)
    | Num(n: int)
    | Str(s: string)
    | Obj(fields: map<string, Value>)
    | Arr(items: seq<Value>)

  /** A decoded `map[string]interface{}`. */
  type Record = map<string, Value>

  /** Indexing a Go map: a missing key reads as nil. */
  function Lookup(r: Record, key: string): Value
  {
    if key in r then r[key] else Null
  }

  /** The comma-ok form `r[key].(string)`. */
  function StringAt(r: Record, key: string): Option<string>
  {
    if key in r && r[key].Str? then Some(r[key].s) else None
  }

  /** Decoding into `map[string]interface{}`: JSON null gives a nil (empty) map. */
  function AsRecord(v: Value): Option<Record>
  {
    match v
    case Obj(m) => Some(m)
    case Null => Some(map[])
    case _ => None
  }

  /** Decoding into `[]map[string]interface{}`: every element must be an object or null. */
  function AsRecordList(v: Value): (r: Option<seq<Record>>)
    ensures r.Some? && v.Arr? ==> |r.value| == |v.items|
    ensures r.Some? && v.Arr? ==> forall i :: 0 <= i < |v.items| ==> AsRecord(v.items[i]) == Some(r.value[i])
    ensures r.None? <==> !(v.Null? || (v.Arr? && forall i :: 0 <= i < |v.items| ==> AsRecord(v.items[i]).Some?))
    // a JSON null decodes to a nil, that is empty, list
    ensures v.Null? ==> r == Some([])
  {
    match v
    case Null => Some([])
    case Arr(items) =>
      if forall i :: 0 <= i < |items| ==> items[i].Obj? || items[i].Null? then
        Some(seq(|items|, i requires 0 <= i < |items| => if items[i].Obj? then items[i].fields else map[]))
      else
        None
    case _ => None
  }

  /** A string field of a Go struct being decoded: absent or null keeps the zero
      value "", a JSON string is taken, anything else is a decoding error. */
  function StructString(r: Record, key: string): Result<string>
  {
    match Lookup(r, key)
    case Null => Ok("")
    case Str(s) => Ok(s)
    case _ => Err(Decode)
  }

  /** An int field of a Go struct being decoded, in the same way (zero value 0). */
  function StructInt(r: Record, key: string): Result<int>
  {
    match Lookup(r, key)
    case Null => Ok(0)
    case Num(n) => Ok(n)
    case _ => Err(Decode)
  }
}
