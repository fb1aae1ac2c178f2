/** Name lookups over decoded listings, as the data sources perform them. */
module Listing {
  import opened Base
  import opened Values

  /** `record["name"] == name` on an `interface{}`: equal only to the same string. */
  predicate Named(record: Record, name: string)
  {
    Lookup(record, "name") == Str(name)
  }

  /** The position of the first record with that name. */
  function FirstNamed(records: seq<Record>, name: string): (r: Option<nat>)
    ensures r.Some? ==> r.value < |records| && Named(records[r.value], name)
    ensures r.Some? ==> forall j :: 0 <= j < r.value ==> !Named(records[j], name)
    ensures r.None? <==> forall j :: 0 <= j < |records| ==> !Named(records[j], name)
  {
    if records == [] then None
    else if Named(records[0], name) then Some(0)
    else match FirstNamed(records[1..], name)
      case None => None
      case Some(k) => Some(k + 1)
  }

  /** Records after the first match are never looked at. */
  lemma {:induction false} FirstNamedIgnoresRest(records: seq<Record>, rest: seq<Record>, name: string)
    requires FirstNamed(records, name).Some?
    ensures FirstNamed(records + rest, name) == FirstNamed(records, name)
  {
    if !Named(records[0], name) {
      assert (records + rest)[1..] == records[1..] + rest;
      FirstNamedIgnoresRest(records[1..], rest, name);
    }
  }
}
