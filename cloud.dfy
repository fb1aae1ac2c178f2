/** The cloud node resource: the shared node operations instantiated with node type
    "cloud", the node ID mirrored into cloud_id. */
module Cloud {
  import opened Base
  import opened Values
  import opened Http
  import opened Api
  import opened Resource
  import opened NodeCrud

  const CloudKind: Kind := Kind("cloud", "cloud_id")

  /** The create body: name and node type always, compute_id only when set, no
      node ID, and x or y only when non-zero. */
  lemma CreatePayloadShape(a: Args)
    ensures var p := Marshal(CreateBody(CloudKind, a));
      p["node_type"] == Str("cloud") && p["name"] == Str(a.name) && "node_id" !in p &&
      ("compute_id" in p <==> a.computeId != "") && ("x" in p <==> a.x != 0) && ("y" in p <==> a.y != 0)
  {
  }

  /** A successful create stores a non-empty node ID as both the identity and cloud_id. */
  lemma CreateStoresNodeId(id: string, attrs: map<string, Value>, projectId: string, a: Args, post: Reply)
    ensures var r := CreateEffect(CloudKind, id, attrs, projectId, a, post);
      r.err.None? ==> r.id != "" && "cloud_id" in r.attrs && r.attrs["cloud_id"] == Str(r.id)
  {
  }
}
