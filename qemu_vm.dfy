/** The QEMU node resource: create with a property bag, read, the
    stop/modify/restart update, delete and the import-ID parser. */
module QemuVm {
  import opened Base
  import opened Values
  import opened Http
  import opened Api
  import opened Resource
  import Text

  /** The arguments create reads. A string or int at its zero value is "not
      set" as GetOk reports it; x and y tell "not set" from "set to 0", as
      GetOkExists does. */
  datatype Settings = Settings(
    name: string, adapterType: string, adapters: int, biosImage: string,
    cdromImage: string, console: int, consoleType: string, cpus: int, ram: int,
    macAddress: string, options: string, platform: string, hdaDiskImage: string,
    startVm: bool, x: Option<int>, y: Option<int>)

  /** The diff update sees for the 16 declared arguments. A string argument
      changed to "" or an int changed to 0 reads as unset through GetOk; x and y
      changed to None were removed from the configuration. `startVm` is the
      configured value of start_vm, which update reads whether or not it changed. */
  datatype Plan = Plan(
    name: Change<string>, adapterType: Change<string>, adapters: Change<int>,
    biosImage: Change<string>, cdromImage: Change<string>, console: Change<int>,
    consoleType: Change<string>, cpus: Change<int>, ram: Change<int>,
    macAddress: Change<string>, options: Change<string>, platform: Change<string>,
    hdaDiskImage: Change<string>, startVmChanged: bool, startVm: bool,
    x: Change<Option<int>>, y: Change<Option<int>>)

  /** Identifiers recovered from an import ID. */
  datatype NodeRef = NodeRef(projectId: string, nodeId: string)

  const PropertyKeys: set<string> :=
    {"adapter_type", "adapters", "bios_image", "cdrom_image", "cpus", "ram",
     "mac_address", "options", "platform", "hda_disk_image", "hda_disk_interface"}

  // ---------------------------------------------------------------- create

  /** The value create gives each key of the `properties` bag; None leaves the key out. */
  function CreateProperty(s: Settings, key: string): Option<Value>
  {
    if key == "adapter_type" then Some(Str(s.adapterType))
    else if key == "adapters" then Some(Num(s.adapters))
    else if key == "bios_image" then Some(Str(s.biosImage))
    else if key == "cdrom_image" then Some(Str(s.cdromImage))
    else if key == "ram" then Some(Num(s.ram))
    else if key == "cpus" then Some(Num(s.cpus))
    else if key == "platform" then Some(Str(s.platform))
    else if key == "mac_address" then (if s.macAddress != "" then Some(Str(s.macAddress)) else None)
    else if key == "options" then (if s.options != "" then Some(Str(s.options)) else None)
    else if key == "hda_disk_image" then (if s.hdaDiskImage != "" then Some(Str(s.hdaDiskImage)) else None)
    else if key == "hda_disk_interface" then (if s.hdaDiskImage != "" then Some(Str("virtio")) else None)
    else None
  }

  /** The `properties` bag create sends. */
  function CreateProperties(s: Settings): (props: Record)
    ensures props.Keys <= PropertyKeys
    // the seven base properties are always sent, cdrom_image even when empty
    ensures "adapter_type" in props && "adapters" in props && "bios_image" in props
      && "ram" in props && "cpus" in props && "platform" in props
    ensures props["adapter_type"] == Str(s.adapterType) && props["adapters"] == Num(s.adapters)
      && props["bios_image"] == Str(s.biosImage) && props["ram"] == Num(s.ram)
      && props["cpus"] == Num(s.cpus) && props["platform"] == Str(s.platform)
    ensures "cdrom_image" in props && props["cdrom_image"] == Str(s.cdromImage)
    // the optional ones only when set
    ensures "mac_address" in props <==> s.macAddress != ""
    ensures "options" in props <==> s.options != ""
    ensures s.macAddress != "" ==> props["mac_address"] == Str(s.macAddress)
    ensures s.options != "" ==> props["options"] == Str(s.options)
    // a disk image always travels with the virtio interface
    ensures "hda_disk_image" in props <==> s.hdaDiskImage != ""
    ensures "hda_disk_interface" in props <==> s.hdaDiskImage != ""
    ensures s.hdaDiskImage != "" ==>
      props["hda_disk_image"] == Str(s.hdaDiskImage) && props["hda_disk_interface"] == Str("virtio")
  {
    map k | k in PropertyKeys && CreateProperty(s, k).Some? :: CreateProperty(s, k).value
  }

  /** The value create gives each top-level key of the node payload. */
  function CreateField(s: Settings, key: string): Option<Value>
  {
    if key == "name" then Some(Str(s.name))
    else if key == "node_type" then Some(Str("qemu"))
    else if key == "compute_id" then Some(Str("local"))
    else if key == "console_type" then Some(Str(s.consoleType))
    else if key == "properties" then Some(Obj(CreateProperties(s)))
    else if key == "console" then (if s.console != 0 then Some(Num(s.console)) else None)
    else if key == "x" then (if s.x.Some? then Some(Num(s.x.value)) else None)
    else if key == "y" then (if s.y.Some? then Some(Num(s.y.value)) else None)
    else None
  }

  const CreateKeys: set<string> :=
    {"name", "node_type", "compute_id", "console_type", "properties", "console", "x", "y"}

  /** The controller payload create posts. */
  function CreatePayload(s: Settings): (payload: Record)
    ensures payload.Keys <= CreateKeys
    ensures "name" in payload && payload["name"] == Str(s.name)
    ensures "console_type" in payload && payload["console_type"] == Str(s.consoleType)
    ensures "node_type" in payload && payload["node_type"] == Str("qemu")
    ensures "compute_id" in payload && payload["compute_id"] == Str("local")
    ensures "properties" in payload && payload["properties"] == Obj(CreateProperties(s))
    // console only when set to a non-zero port
    ensures "console" in payload <==> s.console != 0
    ensures s.console != 0 ==> payload["console"] == Num(s.console)
    // x and y whenever configured, zero included
    ensures "x" in payload <==> s.x.Some?
    ensures "y" in payload <==> s.y.Some?
    ensures s.x.Some? ==> payload["x"] == Num(s.x.value)
    ensures s.y.Some? ==> payload["y"] == Num(s.y.value)
  {
    map k | k in CreateKeys && CreateField(s, k).Some? :: CreateField(s, k).value
  }

  /** The node ID a create response yields: an accepted status (201 or 200), a
      decodable body and a non-empty string node_id. */
  function CreatedNodeId(post: Reply): (n: Option<string>)
    ensures n.Some? <==>
      (post.Response? && post.status in {CREATED, OK} && DecodeRecord(post.body).Ok? &&
       StringAt(DecodeRecord(post.body).value, "node_id").Some? &&
       StringAt(DecodeRecord(post.body).value, "node_id").value != "")
    ensures n.Some? ==> n.value == DecodeRecord(post.body).value["node_id"].s && n.value != ""
  {
    if Expect(post, {CREATED, OK}).Some? then None
    else match DecodeRecord(post.body)
      case Err(_) => None
      case Ok(result) =>
        match StringAt(result, "node_id")
        case None => None
        case Some(n) => if n == "" then None else Some(n)
  }

  /** The error create reports when the response yields no node ID. */
  function CreateError(post: Reply): Error
  {
    match Expect(post, {CREATED, OK})
    case Some(e) => e
    case None => if DecodeRecord(post.body).Err? then Decode else MissingId
  }

  function CreateEffect(id: string, attrs: map<string, Value>, projectId: string, s: Settings,
                        post: Reply, start: Reply, read: Reply): (r: Effect)
    ensures |r.trace| >= 1 && r.trace[0] == PostNode(projectId, CreatePayload(s))
    // no usable node ID: one request, an error, nothing stored
    ensures CreatedNodeId(post).None? ==>
      r.trace == [PostNode(projectId, CreatePayload(s))] && r.err.Some? && r.id == id && r.attrs == attrs
    // a usable node ID is stored, then the node is started when start_vm is set and read
    ensures CreatedNodeId(post).Some? ==>
      r == After([PostNode(projectId, CreatePayload(s))],
                 RestartEffect(CreatedNodeId(post).value, attrs, projectId, s.startVm, start, read))
  {
    var t := [PostNode(projectId, CreatePayload(s))];
    match CreatedNodeId(post)
    case None => Effect(t, Some(CreateError(post)), id, attrs)
    case Some(nodeId) => After(t, RestartEffect(nodeId, attrs, projectId, s.startVm, start, read))
  }

  /** After a created node: a start is issued exactly when start_vm is set; a
      rejected start fails but keeps the new identity; otherwise create ends
      with the read of the new node, whose outcome it reports. */
  lemma CreatedNodeOutcome(id: string, attrs: map<string, Value>, projectId: string, s: Settings,
                           post: Reply, start: Reply, read: Reply)
    requires CreatedNodeId(post).Some?
    ensures var r := CreateEffect(id, attrs, projectId, s, post, start, read);
      var nodeId := CreatedNodeId(post).value;
      (StartNode(projectId, nodeId) in r.trace <==> s.startVm) &&
      (r.id == nodeId || (r.id == "" && r.err.None?)) &&
      (s.startVm && Expect(start, {OK}).Some? ==> r.err == Expect(start, {OK}) && r.id == nodeId) &&
      (!s.startVm || Expect(start, {OK}).None? ==>
        r == After([PostNode(projectId, CreatePayload(s))] + (if s.startVm then [StartNode(projectId, nodeId)] else []),
                   ReadEffect(nodeId, attrs, projectId, read)))
  {
    var nodeId := CreatedNodeId(post).value;
    assert PostNode(projectId, CreatePayload(s)).body.Some?;
    StartAfterRequest(PostNode(projectId, CreatePayload(s)), nodeId, attrs, projectId, s.startVm, start, read);
  }

  /** Helper: the restart and read after one request `p` other than the start. */
  lemma StartAfterRequest(p: Request, id: string, attrs: map<string, Value>, projectId: string, restart: bool,
                          start: Reply, read: Reply)
    requires p.body.Some?
    ensures var r := After([p], RestartEffect(id, attrs, projectId, restart, start, read));
      (StartNode(projectId, id) in r.trace <==> restart) &&
      (r.id == id || (r.id == "" && r.err.None?)) &&
      (restart && Expect(start, {OK}).Some? ==> r.err == Expect(start, {OK}) && r.id == id) &&
      (!restart || Expect(start, {OK}).None? ==>
        r == After([p] + (if restart then [StartNode(projectId, id)] else []), ReadEffect(id, attrs, projectId, read)))
  {
    var rest := RestartEffect(id, attrs, projectId, restart, start, read);
    assert After([p], rest).trace == [p] + rest.trace;
  }

  method Create(d: ResourceData, projectId: string, s: Settings, post: Reply, start: Reply, read: Reply)
    returns (err: Option<Error>, trace: seq<Request>)
    modifies d
    ensures Effect(trace, err, d.id, d.attrs) == CreateEffect(old(d.id), old(d.attrs), projectId, s, post, start, read)
  {
    var payload := CreatePayload(s);
    trace := [PostNode(projectId, payload)];
    if post.TransportFault? {
      return Some(Transport), trace;
    }
    if post.status != CREATED && post.status != OK {
      return Some(Rejected(post.status)), trace;
    }
    var result := DecodeRecord(post.body);
    if result.Err? {
      return Some(Decode), trace;
    }
    var nodeId := StringAt(result.value, "node_id");
    if nodeId.None? || nodeId.value == "" {
      return Some(MissingId), trace;
    }
    d.id := nodeId.value;
    var rest;
    err, rest := Restart(d, projectId, s.startVm, start, read);
    trace := trace + rest;
  }

  // ---------------------------------------------------------------- read

  /** Read copies the node's name, and x or y when the node reports it as a number. */
  function Hydrate(attrs: map<string, Value>, node: Record): (r: map<string, Value>)
    ensures "name" in r && r["name"] == Lookup(node, "name")
    ensures "x" in node && node["x"].Num? ==> "x" in r && r["x"] == node["x"]
    ensures "y" in node && node["y"].Num? ==> "y" in r && r["y"] == node["y"]
    ensures !("x" in node && node["x"].Num?) ==> ("x" in r <==> "x" in attrs) && ("x" in attrs ==> r["x"] == attrs["x"])
    ensures !("y" in node && node["y"].Num?) ==> ("y" in r <==> "y" in attrs) && ("y" in attrs ==> r["y"] == attrs["y"])
    // every other attribute is left as it was
    ensures forall k :: k != "name" && k != "x" && k != "y" ==>
      (k in r <==> k in attrs) && (k in attrs ==> r[k] == attrs[k])
  {
    var named := attrs["name" := Lookup(node, "name")];
    var withX := if "x" in node && node["x"].Num? then named["x" := node["x"]] else named;
    if "y" in node && node["y"].Num? then withX["y" := node["y"]] else withX
  }

  function ReadEffect(id: string, attrs: map<string, Value>, projectId: string, reply: Reply): (r: Effect)
    ensures r.trace == [GetNode(projectId, id)]
    // 404: the node is gone, the identity is cleared, and that is not an error
    ensures reply.Response? && reply.status == NOT_FOUND ==> r == Effect(r.trace, None, "", attrs)
    // any other status but 200, or an undecodable body, is an error that changes nothing
    ensures reply.Response? && reply.status != NOT_FOUND && reply.status != OK ==>
      r == Effect(r.trace, Some(Rejected(reply.status)), id, attrs)
    ensures reply.Response? && reply.status == OK && DecodeRecord(reply.body).Err? ==>
      r == Effect(r.trace, Some(Decode), id, attrs)
    ensures reply.TransportFault? ==> r == Effect(r.trace, Some(Transport), id, attrs)
    // a readable node keeps the identity and refreshes name and coordinates
    ensures reply.Response? && reply.status == OK && DecodeRecord(reply.body).Ok? ==>
      r == Effect(r.trace, None, id, Hydrate(attrs, DecodeRecord(reply.body).value))
    ensures r.id != id ==> r.id == "" && r.err.None?
  {
    var t := [GetNode(projectId, id)];
    match reply
    case TransportFault => Effect(t, Some(Transport), id, attrs)
    case Response(status, body) =>
      if status == NOT_FOUND then Effect(t, None, "", attrs)
      else if status != OK then Effect(t, Some(Rejected(status)), id, attrs)
      else match DecodeRecord(body)
        case Err(e) => Effect(t, Some(e), id, attrs)
        case Ok(node) => Effect(t, None, id, Hydrate(attrs, node))
  }

  method Read(d: ResourceData, projectId: string, reply: Reply) returns (err: Option<Error>, trace: seq<Request>)
    modifies d
    ensures Effect(trace, err, d.id, d.attrs) == ReadEffect(old(d.id), old(d.attrs), projectId, reply)
  {
    trace := [GetNode(projectId, d.id)];
    if reply.TransportFault? {
      return Some(Transport), trace;
    }
    if reply.status == NOT_FOUND {
      d.id := "";
      return None, trace;
    } else if reply.status != OK {
      return Some(Rejected(reply.status)), trace;
    }
    var decoded := DecodeRecord(reply.body);
    if decoded.Err? {
      return Some(Decode), trace;
    }
    var node := decoded.value;
    d.attrs := d.attrs["name" := Lookup(node, "name")];
    if "x" in node && node["x"].Num? {
      d.attrs := d.attrs["x" := node["x"]];
    }
    if "y" in node && node["y"].Num? {
      d.attrs := d.attrs["y" := node["y"]];
    }
    err := None;
  }

  // ---------------------------------------------------------------- update

  /** Whether any of the 16 declared arguments changed. */
  predicate AnyChange(plan: Plan)
  {
    plan.name.Changed? || plan.adapterType.Changed? || plan.adapters.Changed? ||
    plan.biosImage.Changed? || plan.cdromImage.Changed? || plan.console.Changed? ||
    plan.consoleType.Changed? || plan.cpus.Changed? || plan.ram.Changed? ||
    plan.macAddress.Changed? || plan.options.Changed? || plan.platform.Changed? ||
    plan.hdaDiskImage.Changed? || plan.startVmChanged || plan.x.Changed? || plan.y.Changed?
  }

  /** The run state the pre-update read reports: `status` is the string "started". */
  predicate IsStarted(node: Record)
  {
    StringAt(node, "status") == Some("started")
  }

  /** The fetched property bag; a missing or non-object `properties` is empty. */
  function Properties(node: Record): Record
  {
    if "properties" in node && node["properties"].Obj? then node["properties"].fields else map[]
  }

  /** What update does to one key of the property bag. */
  datatype KeyIntent = Untouched | Assign(v: Value) | Remove

  function StrIntent(c: Change<string>): KeyIntent
  {
    match c
    case Unchanged => Untouched
    case Changed(v) => Assign(Str(v))
  }

  function NumIntent(c: Change<int>): KeyIntent
  {
    match c
    case Unchanged => Untouched
    case Changed(v) => Assign(Num(v))
  }

  /** A clearable argument: changed to "" removes the key instead of setting it. */
  function ClearableIntent(c: Change<string>): KeyIntent
  {
    match c
    case Unchanged => Untouched
    case Changed(v) => if v != "" then Assign(Str(v)) else Remove
  }

  /** hda_disk_interface follows hda_disk_image: "virtio" when an image is set, removed with it. */
  function DiskInterfaceIntent(c: Change<string>): KeyIntent
  {
    match ClearableIntent(c)
    case Assign(_) => Assign(Str("virtio"))
    case other => other
  }

  /** The intent for each key of the bag; every key update does not name is untouched. */
  function Intent(plan: Plan, key: string): KeyIntent
  {
    if key == "adapter_type" then StrIntent(plan.adapterType)
    else if key == "adapters" then NumIntent(plan.adapters)
    else if key == "bios_image" then StrIntent(plan.biosImage)
    else if key == "cdrom_image" then ClearableIntent(plan.cdromImage)
    else if key == "cpus" then NumIntent(plan.cpus)
    else if key == "ram" then NumIntent(plan.ram)
    else if key == "mac_address" then ClearableIntent(plan.macAddress)
    else if key == "options" then ClearableIntent(plan.options)
    else if key == "platform" then StrIntent(plan.platform)
    else if key == "hda_disk_image" then ClearableIntent(plan.hdaDiskImage)
    else if key == "hda_disk_interface" then DiskInterfaceIntent(plan.hdaDiskImage)
    else Untouched
  }

  /** One key of the bag after the in-place write (or delete) its intent asks for. */
  function ApplyIntent(bag: Record, key: string, intent: KeyIntent): Record
  {
    match intent
    case Untouched => bag
    case Assign(v) => bag[key := v]
    case Remove => bag - {key}
  }

  /** The bag update sends: the arguments' intents applied to the fetched bag in
      the order update writes them. */
  function Overlay(props: Record, plan: Plan): Record
  {
    var b1 := ApplyIntent(props, "adapter_type", StrIntent(plan.adapterType));
    var b2 := ApplyIntent(b1, "adapters", NumIntent(plan.adapters));
    var b3 := ApplyIntent(b2, "bios_image", StrIntent(plan.biosImage));
    var b4 := ApplyIntent(b3, "cdrom_image", ClearableIntent(plan.cdromImage));
    var b5 := ApplyIntent(b4, "cpus", NumIntent(plan.cpus));
    var b6 := ApplyIntent(b5, "ram", NumIntent(plan.ram));
    var b7 := ApplyIntent(b6, "mac_address", ClearableIntent(plan.macAddress));
    var b8 := ApplyIntent(b7, "options", ClearableIntent(plan.options));
    var b9 := ApplyIntent(b8, "platform", StrIntent(plan.platform));
    var b10 := ApplyIntent(b9, "hda_disk_image", ClearableIntent(plan.hdaDiskImage));
    ApplyIntent(b10, "hda_disk_interface", DiskInterfaceIntent(plan.hdaDiskImage))
  }

  /** A write touches its own key only, and leaves there what its intent says. */
  lemma ApplyIntentAt(bag: Record, key: string, intent: KeyIntent, k: string)
    ensures var r := ApplyIntent(bag, key, intent);
      (k != key || intent.Untouched? ==> (k in r <==> k in bag) && (k in bag ==> r[k] == bag[k])) &&
      (k == key && intent.Assign? ==> k in r && r[k] == intent.v) &&
      (k == key && intent.Remove? ==> k !in r)
  {
  }

  /** The writes satisfy the per-key intents: a key not flagged keeps its
      fetched value or stays absent, a changed key holds its new value, a
      cleared key is gone. */
  lemma {:induction false} OverlayAt(props: Record, plan: Plan, k: string)
    ensures var bag := Overlay(props, plan); var i := Intent(plan, k);
      (i.Untouched? ==> (k in bag <==> k in props) && (k in props ==> bag[k] == props[k])) &&
      (i.Assign? ==> k in bag && bag[k] == i.v) &&
      (i.Remove? ==> k !in bag)
  {
    var b1 := ApplyIntent(props, "adapter_type", StrIntent(plan.adapterType));
    var b2 := ApplyIntent(b1, "adapters", NumIntent(plan.adapters));
    var b3 := ApplyIntent(b2, "bios_image", StrIntent(plan.biosImage));
    var b4 := ApplyIntent(b3, "cdrom_image", ClearableIntent(plan.cdromImage));
    var b5 := ApplyIntent(b4, "cpus", NumIntent(plan.cpus));
    var b6 := ApplyIntent(b5, "ram", NumIntent(plan.ram));
    var b7 := ApplyIntent(b6, "mac_address", ClearableIntent(plan.macAddress));
    var b8 := ApplyIntent(b7, "options", ClearableIntent(plan.options));
    var b9 := ApplyIntent(b8, "platform", StrIntent(plan.platform));
    var b10 := ApplyIntent(b9, "hda_disk_image", ClearableIntent(plan.hdaDiskImage));
    ApplyIntentAt(props, "adapter_type", StrIntent(plan.adapterType), k);
    ApplyIntentAt(b1, "adapters", NumIntent(plan.adapters), k);
    ApplyIntentAt(b2, "bios_image", StrIntent(plan.biosImage), k);
    ApplyIntentAt(b3, "cdrom_image", ClearableIntent(plan.cdromImage), k);
    ApplyIntentAt(b4, "cpus", NumIntent(plan.cpus), k);
    ApplyIntentAt(b5, "ram", NumIntent(plan.ram), k);
    ApplyIntentAt(b6, "mac_address", ClearableIntent(plan.macAddress), k);
    ApplyIntentAt(b7, "options", ClearableIntent(plan.options), k);
    ApplyIntentAt(b8, "platform", StrIntent(plan.platform), k);
    ApplyIntentAt(b9, "hda_disk_image", ClearableIntent(plan.hdaDiskImage), k);
    ApplyIntentAt(b10, "hda_disk_interface", DiskInterfaceIntent(plan.hdaDiskImage), k);
  }

  /** `props[key] = d.Get(key)` when the string argument changed. */
  method WriteString(bag: Record, key: string, c: Change<string>) returns (r: Record)
    ensures r == ApplyIntent(bag, key, StrIntent(c))
  {
    r := bag;
    if c.Changed? {
      r := r[key := Str(c.to)];
    }
  }

  /** `props[key] = d.Get(key)` when the int argument changed. */
  method WriteNumber(bag: Record, key: string, c: Change<int>) returns (r: Record)
    ensures r == ApplyIntent(bag, key, NumIntent(c))
  {
    r := bag;
    if c.Changed? {
      r := r[key := Num(c.to)];
    }
  }

  /** A changed clearable argument: written when still set, deleted when cleared. */
  method WriteClearable(bag: Record, key: string, c: Change<string>) returns (r: Record)
    ensures r == ApplyIntent(bag, key, ClearableIntent(c))
  {
    r := bag;
    if c.Changed? {
      if c.to != "" {
        r := r[key := Str(c.to)];
      } else {
        r := r - {key};
      }
    }
  }

  /** A changed hda_disk_image: image and "virtio" interface written together, or both deleted. */
  method WriteDiskImage(bag: Record, c: Change<string>) returns (r: Record)
    ensures r == ApplyIntent(ApplyIntent(bag, "hda_disk_image", ClearableIntent(c)),
                             "hda_disk_interface", DiskInterfaceIntent(c))
  {
    r := bag;
    if c.Changed? {
      if c.to != "" {
        r := r["hda_disk_image" := Str(c.to)]["hda_disk_interface" := Str("virtio")];
      } else {
        r := r - {"hda_disk_image", "hda_disk_interface"};
        assert r == (bag - {"hda_disk_image"}) - {"hda_disk_interface"};
      }
    }
  }

  /** The overlay as update performs it: one write or delete per changed argument, in order. */
  method ApplyOverlay(props: Record, plan: Plan) returns (bag: Record)
    ensures bag == Overlay(props, plan)
  {
    bag := WriteString(props, "adapter_type", plan.adapterType);
    bag := WriteNumber(bag, "adapters", plan.adapters);
    bag := WriteString(bag, "bios_image", plan.biosImage);
    bag := WriteClearable(bag, "cdrom_image", plan.cdromImage);
    bag := WriteNumber(bag, "cpus", plan.cpus);
    bag := WriteNumber(bag, "ram", plan.ram);
    bag := WriteClearable(bag, "mac_address", plan.macAddress);
    bag := WriteClearable(bag, "options", plan.options);
    bag := WriteString(bag, "platform", plan.platform);
    bag := WriteDiskImage(bag, plan.hdaDiskImage);
  }

  /** Clearing an argument removes its key from the bag; clearing the disk image
      removes its interface too; keys update does not manage pass through. */
  lemma {:induction false} OverlayClears(props: Record, plan: Plan)
    ensures plan.cdromImage == Changed("") ==> "cdrom_image" !in Overlay(props, plan)
    ensures plan.macAddress == Changed("") ==> "mac_address" !in Overlay(props, plan)
    ensures plan.options == Changed("") ==> "options" !in Overlay(props, plan)
    ensures plan.hdaDiskImage == Changed("") ==>
      "hda_disk_image" !in Overlay(props, plan) && "hda_disk_interface" !in Overlay(props, plan)
    ensures plan.hdaDiskImage.Changed? && plan.hdaDiskImage.to != "" ==>
      Overlay(props, plan)["hda_disk_image"] == Str(plan.hdaDiskImage.to) &&
      Overlay(props, plan)["hda_disk_interface"] == Str("virtio")
  {
    OverlayAt(props, plan, "cdrom_image");
    OverlayAt(props, plan, "mac_address");
    OverlayAt(props, plan, "options");
    OverlayAt(props, plan, "hda_disk_image");
    OverlayAt(props, plan, "hda_disk_interface");
  }

  /** Properties the controller reports that update does not manage are sent back unchanged. */
  lemma {:induction false} OverlayKeepsForeignKeys(props: Record, plan: Plan, k: string)
    requires k !in PropertyKeys
    ensures k in Overlay(props, plan) <==> k in props
    ensures k in props ==> Overlay(props, plan)[k] == props[k]
  {
    assert Intent(plan, k) == Untouched;
    OverlayAt(props, plan, k);
  }

  /** The value update gives each top-level key of the PUT body besides `properties`. */
  function PutField(plan: Plan, key: string): Option<Value>
  {
    if key == "name" then
      (if plan.name.Changed? then Some(Str(plan.name.to)) else None)
    else if key == "console" then
      (if plan.console.Changed? && plan.console.to != 0 then Some(Num(plan.console.to)) else None)
    else if key == "console_type" then
      (if plan.consoleType.Changed? then Some(Str(plan.consoleType.to)) else None)
    else if key == "x" then
      (if plan.x.Changed? && plan.x.to.Some? then Some(Num(plan.x.to.value)) else None)
    else if key == "y" then
      (if plan.y.Changed? && plan.y.to.Some? then Some(Num(plan.y.to.value)) else None)
    else None
  }

  const PutKeys: set<string> := {"name", "console", "console_type", "x", "y"}

  /** The PUT body: the whole merged bag, and each top-level field only when changed. */
  function PutPayload(bag: Record, plan: Plan): (payload: Record)
    ensures payload.Keys <= PutKeys + {"properties"}
    ensures "properties" in payload && payload["properties"] == Obj(bag)
    ensures "name" in payload <==> plan.name.Changed?
    ensures "console_type" in payload <==> plan.consoleType.Changed?
    ensures plan.name.Changed? ==> payload["name"] == Str(plan.name.to)
    ensures plan.consoleType.Changed? ==> payload["console_type"] == Str(plan.consoleType.to)
    // console only when changed to a non-zero port
    ensures "console" in payload <==> plan.console.Changed? && plan.console.to != 0
    ensures "console" in payload ==> payload["console"] == Num(plan.console.to)
    // x and y when changed and still set, zero included
    ensures "x" in payload <==> plan.x.Changed? && plan.x.to.Some?
    ensures "y" in payload <==> plan.y.Changed? && plan.y.to.Some?
    ensures "x" in payload ==> payload["x"] == Num(plan.x.to.value)
    ensures "y" in payload ==> payload["y"] == Num(plan.y.to.value)
  {
    (map k | k in PutKeys && PutField(plan, k).Some? :: PutField(plan, k).value)["properties" := Obj(bag)]
  }

  /** The requests update issues after a successful pre-read when every
      response is accepted: optional stop, the PUT, optional start. */
  function ModifyRequests(projectId: string, id: string, payload: Record, running: bool, startVm: bool): seq<Request>
  {
    StopThenPut(projectId, id, payload, running) + (if running || startVm then [StartNode(projectId, id)] else [])
  }

  /** The stop, when the node is running, and the PUT. */
  function StopThenPut(projectId: string, id: string, payload: Record, running: bool): seq<Request>
  {
    (if running then [StopNode(projectId, id)] else []) + [PutNode(projectId, id, payload)]
  }

  /** Whether the stop, when one is needed, was accepted (200, or 409 for a node already stopped). */
  predicate StopPassed(running: bool, stop: Reply)
  {
    !running || Expect(stop, {OK, CONFLICT}).None?
  }

  /** Whether every response after the pre-read was accepted. */
  predicate AllAccepted(running: bool, startVm: bool, stop: Reply, put: Reply, start: Reply)
  {
    StopPassed(running, stop) && Expect(put, {OK}).None? && (!(running || startVm) || Expect(start, {OK}).None?)
  }

  /** The last steps of update: the start when one is wanted, then the re-read. */
  function RestartEffect(id: string, attrs: map<string, Value>, projectId: string, restart: bool,
                         start: Reply, reread: Reply): (r: Effect)
    ensures StartNode(projectId, id) in r.trace <==> restart
    ensures PUT !in set i | 0 <= i < |r.trace| :: r.trace[i].verb
    ensures StopNode(projectId, id) !in r.trace
    // a rejected start ends the update with an error, before the re-read
    ensures restart && Expect(start, {OK}).Some? ==>
      r == Effect([StartNode(projectId, id)], Expect(start, {OK}), id, attrs)
    ensures !restart || Expect(start, {OK}).None? ==>
      r == After(if restart then [StartNode(projectId, id)] else [], ReadEffect(id, attrs, projectId, reread))
    // the identity changes only through the read
    ensures r.id != id ==> r.id == "" && r.err.None?
  {
    StopIsNotStart(projectId, id);
    if !restart then ReadEffect(id, attrs, projectId, reread)
    else match Expect(start, {OK})
      case Some(e) => Effect([StartNode(projectId, id)], Some(e), id, attrs)
      case None =>
        assert After([StartNode(projectId, id)], ReadEffect(id, attrs, projectId, reread)).trace
          == [StartNode(projectId, id), GetNode(projectId, id)];
        After([StartNode(projectId, id)], ReadEffect(id, attrs, projectId, reread))
  }

  /** Update after the pre-read, given the PUT body and whether the node was running. */
  function ModifyEffect(id: string, attrs: map<string, Value>, projectId: string, payload: Record,
                        running: bool, startVm: bool, stop: Reply, put: Reply, start: Reply, reread: Reply): (r: Effect)
    // a stop is issued exactly when the node was running, and comes first
    ensures StopNode(projectId, id) in r.trace <==> running
    ensures running ==> r.trace[0] == StopNode(projectId, id)
    // a stop answered with neither 200 nor 409 fails before the PUT
    ensures !StopPassed(running, stop) ==>
      r == Effect([StopNode(projectId, id)], Expect(stop, {OK, CONFLICT}), id, attrs)
    // otherwise the PUT follows; a rejected PUT ends the update there
    ensures StopPassed(running, stop) && Expect(put, {OK}).Some? ==>
      r == Effect(StopThenPut(projectId, id, payload, running), Expect(put, {OK}), id, attrs)
    // an accepted PUT leads to the restart and re-read, started exactly when the
    // node was running or start_vm is set
    ensures StopPassed(running, stop) && Expect(put, {OK}).None? ==>
      r == After(StopThenPut(projectId, id, payload, running),
                 RestartEffect(id, attrs, projectId, running || startVm, start, reread))
    // the identity changes only through the final read
    ensures r.id != id ==> r.id == "" && r.err.None?
  {
    var stops := if running then [StopNode(projectId, id)] else [];
    var puts := stops + [PutNode(projectId, id, payload)];
    StopIsNotStart(projectId, id);
    if !StopPassed(running, stop) then Effect(stops, Expect(stop, {OK, CONFLICT}), id, attrs)
    else if Expect(put, {OK}).Some? then Effect(puts, Expect(put, {OK}), id, attrs)
    else After(puts, RestartEffect(id, attrs, projectId, running || startVm, start, reread))
  }

  function UpdateEffect(id: string, attrs: map<string, Value>, projectId: string, plan: Plan,
                        get: Reply, stop: Reply, put: Reply, start: Reply, reread: Reply): (r: Effect)
    // nothing changed: exactly a plain read
    ensures !AnyChange(plan) ==> r == ReadEffect(id, attrs, projectId, reread)
    ensures AnyChange(plan) ==> |r.trace| >= 1 && r.trace[0] == GetNode(projectId, id)
    // pre-read 404: the node is gone, the identity is cleared, nothing else is sent
    ensures AnyChange(plan) && get.Response? && get.status == NOT_FOUND ==>
      r == Effect([GetNode(projectId, id)], None, "", attrs)
    // pre-read with another status but 200: an error, nothing else is sent
    ensures AnyChange(plan) && get.Response? && get.status != NOT_FOUND && get.status != OK ==>
      r == Effect([GetNode(projectId, id)], Some(Rejected(get.status)), id, attrs)
    // a pre-read that fails in transport or yields an unreadable node: an error, nothing else is sent
    ensures AnyChange(plan) && get.TransportFault? ==> r == Effect([GetNode(projectId, id)], Some(Transport), id, attrs)
    ensures AnyChange(plan) && get.Response? && get.status == OK && DecodeRecord(get.body).Err? ==>
      r == Effect([GetNode(projectId, id)], Some(Decode), id, attrs)
    // after a successful pre-read: the stop/modify/restart sequence, its PUT
    // carrying the fetched bag overlaid with the changes
    ensures AnyChange(plan) && get.Response? && get.status == OK && DecodeRecord(get.body).Ok? ==>
      var node := DecodeRecord(get.body).value;
      r == After([GetNode(projectId, id)],
                 ModifyEffect(id, attrs, projectId, PutPayload(Overlay(Properties(node), plan), plan),
                              IsStarted(node), plan.startVm, stop, put, start, reread))
  {
    if !AnyChange(plan) then ReadEffect(id, attrs, projectId, reread)
    else
      var t := [GetNode(projectId, id)];
      match get
      case TransportFault => Effect(t, Some(Transport), id, attrs)
      case Response(status, body) =>
        if status == NOT_FOUND then Effect(t, None, "", attrs)
        else if status != OK then Effect(t, Some(Rejected(status)), id, attrs)
        else match DecodeRecord(body)
          case Err(e) => Effect(t, Some(e), id, attrs)
          case Ok(node) =>
            After(t, ModifyEffect(id, attrs, projectId, PutPayload(Overlay(Properties(node), plan), plan),
                                  IsStarted(node), plan.startVm, stop, put, start, reread))
  }

  /** When every response is accepted the update issues, in order: the pre-read,
      the stop if the node was running, the PUT, the start if the node was
      running or start_vm is set, and the re-read, whose outcome it reports. */
  lemma {:induction false} UpdateAllAccepted(id: string, attrs: map<string, Value>, projectId: string, plan: Plan,
                                             get: Reply, stop: Reply, put: Reply, start: Reply, reread: Reply)
    requires AnyChange(plan) && get.Response? && get.status == OK && DecodeRecord(get.body).Ok?
    requires AllAccepted(IsStarted(DecodeRecord(get.body).value), plan.startVm, stop, put, start)
    ensures var node := DecodeRecord(get.body).value;
      var r := UpdateEffect(id, attrs, projectId, plan, get, stop, put, start, reread);
      var e := ReadEffect(id, attrs, projectId, reread);
      r.trace == [GetNode(projectId, id)]
        + ModifyRequests(projectId, id, PutPayload(Overlay(Properties(node), plan), plan), IsStarted(node), plan.startVm)
        + [GetNode(projectId, id)] &&
      r.err == e.err && r.id == e.id && r.attrs == e.attrs
  {
    var node := DecodeRecord(get.body).value;
    var running := IsStarted(node);
    var payload := PutPayload(Overlay(Properties(node), plan), plan);
    var m := ModifyEffect(id, attrs, projectId, payload, running, plan.startVm, stop, put, start, reread);
    var rs := RestartEffect(id, attrs, projectId, running || plan.startVm, start, reread);
    assert m == After(StopThenPut(projectId, id, payload, running), rs);
    assert rs.trace == (if running || plan.startVm then [StartNode(projectId, id)] else []) + [GetNode(projectId, id)];
  }

  /** A running node on which only cpus changes from 1 to 2: the bag keeps ram
      and takes the new cpus, and the node is stopped, modified, started and read. */
  lemma ScenarioCpus(id: string, attrs: map<string, Value>, projectId: string, get: Reply, reread: Reply)
    requires get == Response(OK, Json(Obj(map["status" := Str("started"),
                                              "properties" := Obj(map["ram" := Num(256), "cpus" := Num(1)])])))
    ensures var plan := Plan(Unchanged, Unchanged, Unchanged, Unchanged, Unchanged, Unchanged, Unchanged,
                              Changed(2), Unchanged, Unchanged, Unchanged, Unchanged, Unchanged, false, false,
                              Unchanged, Unchanged);
      var ok := Response(OK, Json(Null));
      var r := UpdateEffect(id, attrs, projectId, plan, get, ok, ok, ok, reread);
      var body := map["properties" := Obj(map["ram" := Num(256), "cpus" := Num(2)])];
      r.trace == [GetNode(projectId, id), StopNode(projectId, id), PutNode(projectId, id, body),
                  StartNode(projectId, id), GetNode(projectId, id)]
  {
    var plan := Plan(Unchanged, Unchanged, Unchanged, Unchanged, Unchanged, Unchanged, Unchanged,
                     Changed(2), Unchanged, Unchanged, Unchanged, Unchanged, Unchanged, false, false,
                     Unchanged, Unchanged);
    var ok := Response(OK, Json(Null));
    var node := DecodeRecord(get.body).value;
    assert IsStarted(node);
    var bag := map["ram" := Num(256), "cpus" := Num(2)];
    assert Overlay(Properties(node), plan) == bag;
    var body := map["properties" := Obj(bag)];
    assert PutPayload(bag, plan) == body;
    UpdateAllAccepted(id, attrs, projectId, plan, get, ok, ok, ok, reread);
  }

  /** Steps 2 to 7 of update: stop if running, PUT, then the restart and re-read. */
  method Modify(d: ResourceData, projectId: string, payload: Record, wasRunning: bool, startVm: bool,
                stop: Reply, put: Reply, start: Reply, reread: Reply)
    returns (err: Option<Error>, trace: seq<Request>)
    modifies d
    ensures Effect(trace, err, d.id, d.attrs) ==
      ModifyEffect(old(d.id), old(d.attrs), projectId, payload, wasRunning, startVm, stop, put, start, reread)
  {
    var nodeId := d.id;
    trace := [];
    if wasRunning {
      trace := trace + [StopNode(projectId, nodeId)];
      if stop.TransportFault? {
        return Some(Transport), trace;
      }
      if stop.status != OK && stop.status != CONFLICT {
        return Some(Rejected(stop.status)), trace;
      }
    }
    trace := trace + [PutNode(projectId, nodeId, payload)];
    if put.TransportFault? {
      return Some(Transport), trace;
    }
    if put.status != OK {
      return Some(Rejected(put.status)), trace;
    }
    var rest;
    err, rest := Restart(d, projectId, wasRunning || startVm, start, reread);
    trace := trace + rest;
  }

  /** Step 6 and 7 of update: start again when wanted, then re-read. */
  method Restart(d: ResourceData, projectId: string, restart: bool, start: Reply, reread: Reply)
    returns (err: Option<Error>, trace: seq<Request>)
    modifies d
    ensures Effect(trace, err, d.id, d.attrs) == RestartEffect(old(d.id), old(d.attrs), projectId, restart, start, reread)
  {
    trace := [];
    if restart {
      trace := [StartNode(projectId, d.id)];
      if start.TransportFault? {
        return Some(Transport), trace;
      }
      if start.status != OK {
        return Some(Rejected(start.status)), trace;
      }
    }
    var readTrace;
    err, readTrace := Read(d, projectId, reread);
    trace := trace + readTrace;
  }

  method Update(d: ResourceData, projectId: string, plan: Plan,
                get: Reply, stop: Reply, put: Reply, start: Reply, reread: Reply)
    returns (err: Option<Error>, trace: seq<Request>)
    modifies d
    ensures Effect(trace, err, d.id, d.attrs) ==
      UpdateEffect(old(d.id), old(d.attrs), projectId, plan, get, stop, put, start, reread)
  {
    if !AnyChange(plan) {
      err, trace := Read(d, projectId, reread);
      return;
    }
    // fetch the live node
    trace := [GetNode(projectId, d.id)];
    if get.TransportFault? {
      return Some(Transport), trace;
    }
    if get.status == NOT_FOUND {
      d.id := "";
      return None, trace;
    }
    if get.status != OK {
      return Some(Rejected(get.status)), trace;
    }
    var decoded := DecodeRecord(get.body);
    if decoded.Err? {
      return Some(Decode), trace;
    }
    var node := decoded.value;
    var props := Properties(node);
    var wasRunning := StringAt(node, "status") == Some("started");
    // overlay the changed arguments and build the body
    props := ApplyOverlay(props, plan);
    var payload := PutPayload(props, plan);
    var rest;
    err, rest := Modify(d, projectId, payload, wasRunning, plan.startVm, stop, put, start, reread);
    trace := trace + rest;
  }

  // ---------------------------------------------------------------- delete

  function DeleteEffect(id: string, attrs: map<string, Value>, projectId: string, reply: Reply): (r: Effect)
    ensures r.trace == [DeleteNode(projectId, id)] && r.attrs == attrs
    // 204 and 200 both succeed and clear the identity; anything else fails and keeps it
    ensures r.err.None? <==> reply.Response? && (reply.status == NO_CONTENT || reply.status == OK)
    ensures r.id == if r.err.None? then "" else id
  {
    match Expect(reply, {NO_CONTENT, OK})
    case None => Effect([DeleteNode(projectId, id)], None, "", attrs)
    case Some(e) => Effect([DeleteNode(projectId, id)], Some(e), id, attrs)
  }

  method Delete(d: ResourceData, projectId: string, reply: Reply) returns (err: Option<Error>, trace: seq<Request>)
    modifies d
    ensures Effect(trace, err, d.id, d.attrs) == DeleteEffect(old(d.id), old(d.attrs), projectId, reply)
  {
    trace := [DeleteNode(projectId, d.id)];
    if reply.TransportFault? {
      return Some(Transport), trace;
    }
    if reply.status != NO_CONTENT && reply.status != OK {
      return Some(Rejected(reply.status)), trace;
    }
    d.id := "";
    err := None;
  }

  // ---------------------------------------------------------------- import

  /** `<node_id>,<project_id>` when the ID contains a comma (checked first),
      otherwise `<project_id>/<node_id>`; each splits at its first separator. */
  function ParseImportId(raw: string): (r: Result<NodeRef>)
    ensures ',' in raw ==>
      r.Ok? && raw == r.value.nodeId + [','] + r.value.projectId && ',' !in r.value.nodeId
    ensures ',' !in raw && '/' in raw ==>
      r.Ok? && raw == r.value.projectId + ['/'] + r.value.nodeId && '/' !in r.value.projectId
    ensures ',' !in raw && '/' !in raw ==> r == Err(BadImportId(raw))
  {
    match Text.Cut(raw, ',')
    case Some((node, project)) => Ok(NodeRef(project, node))
    case None =>
      match Text.Cut(raw, '/')
      case Some((project, node)) => Ok(NodeRef(project, node))
      case None => Err(BadImportId(raw))
  }

  /** The comma form round-trips. */
  lemma {:induction false} ImportCommaRoundTrip(nodeId: string, projectId: string)
    requires ',' !in nodeId
    ensures ParseImportId(nodeId + [','] + projectId) == Ok(NodeRef(projectId, nodeId))
  {
    var raw := nodeId + [','] + projectId;
    Text.SeparatorAt(nodeId, projectId, ',');
    var r := ParseImportId(raw);
    Text.SplitUnique(r.value.nodeId, r.value.projectId, nodeId, projectId, ',');
  }

  /** The slash form round-trips when neither part holds a comma. */
  lemma {:induction false} ImportSlashRoundTrip(projectId: string, nodeId: string)
    requires ',' !in projectId && ',' !in nodeId && '/' !in projectId
    ensures ParseImportId(projectId + ['/'] + nodeId) == Ok(NodeRef(projectId, nodeId))
  {
    var raw := projectId + ['/'] + nodeId;
    Text.SeparatorAt(projectId, nodeId, '/');
    assert ',' !in raw by {
      forall i | 0 <= i < |raw| ensures raw[i] != ',' {
        if i < |projectId| {
          assert raw[i] == projectId[i];
        } else if i > |projectId| {
          assert raw[i] == nodeId[i - |projectId| - 1];
        }
      }
    }
    var r := ParseImportId(raw);
    Text.SplitUnique(r.value.projectId, r.value.nodeId, projectId, nodeId, '/');
  }

  /** The importer: seeds project_id and makes the node ID the identity. */
  method Import(d: ResourceData) returns (err: Option<Error>)
    modifies d
    ensures ParseImportId(old(d.id)).Err? ==>
      err == Some(ParseImportId(old(d.id)).error) && d.id == old(d.id) && d.attrs == old(d.attrs)
    ensures ParseImportId(old(d.id)).Ok? ==>
      err.None? && d.id == ParseImportId(old(d.id)).value.nodeId &&
      d.attrs == old(d.attrs)["project_id" := Str(ParseImportId(old(d.id)).value.projectId)]
  {
    var parsed := ParseImportId(d.id);
    if parsed.Err? {
      return Some(parsed.error);
    }
    d.attrs := d.attrs["project_id" := Str(parsed.value.projectId)];
    d.id := parsed.value.nodeId;
    err := None;
  }
}
