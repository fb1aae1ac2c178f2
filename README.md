# GNS3 Terraform provider: a verified model of its decision logic

This project models the decision logic of the GNS3 Terraform provider. The
provider manages QEMU nodes, switches, cloud nodes, links, projects and a
start-all action through the GNS3 controller's REST API. It also offers data
sources that look up node, link and template IDs by name.

Every HTTP exchange is abstracted in the same way:

- An operation is given its responses as inputs (a `Reply`). A reply is a
  transport fault, or a status code with a body. The body is unreadable,
  malformed JSON, or a JSON `Value`.
- The operation's outcome is an `Effect`: the requests it issued, in order
  (the trace), the error it returned, the stored identity (`d.Id()`), and
  the stored attributes.

Terraform's resource data is the class `Resource.ResourceData`, with the
identity and attribute map as fields. Each operation that writes them is an
imperative method. Each method is proved equal to a pure effect function, and
the provider's promises are stated on those functions and in lemmas.

Modules:

- `Base`, `Values`: outcomes, error kinds, and the JSON value model.
- `Http`, `Api`, `Resource`: replies, status policies (`Expect`), the
  requests the provider issues, and the resource data.
- `Text`: first-separator splitting, used by the import parsers.
- `QemuVm`: create payload, read, the stop/modify/restart update with its
  in-place property overlay, delete, and the comma/slash importer.
- `Link`: the ten-attempt readiness poller, the two-endpoint create, read,
  update, delete, and the slash importer.
- `NodeCrud`: the node operations shared by switch and cloud. They use the
  same struct with `omitempty` fields, the same update map filled from the
  changed fields, and the same status rules.
- `Switch`, `Cloud`: `NodeCrud` with each resource's node type and ID
  attribute.
- `Project`: the three-step create, the read clearing rules, the name-only
  update, and the status-blind delete.
- `StartAll`: the start-all action, its derived identity and its importer.
- `Listing`, `NodeIdSource`, `LinkIdSource`, `TemplateIdSource`, `Utiles`:
  the first-match lookups over decoded lists.

Where a Go type assertion is unchecked and would panic, the model makes the
assertion a precondition:

- the matched node's `node_id` in the node-ID data source;
- each template name the search reaches and the first project's `project_id` in `utiles.go`.

## Model

| member | source | states |
|---|---|---|
| Values.AsRecordList | provider/resource_link.go:41-44 | a list decodes exactly when it is null or every element is an object or null, keeping the length and each element's fields; null is the empty list |
| Http.Expect | provider/resource_link.go:157-163 | a response passes a status check exactly when it arrived and its status is one of the accepted ones |
| Http.DecodeRecord | provider/resource_qemu_vm.go:252-255 | decoding into a map succeeds exactly for a JSON object or null, and otherwise reports a decode error; an object gives its own fields, null the empty map |
| Http.DecodeRecordList | provider/resource_link.go:41-44 | decoding into a list of maps succeeds exactly for null or an array of objects or nulls, and otherwise reports a decode error; an array gives one map per element, in order, and null the empty list |
| Api.StopIsNotStart | provider/resource_qemu_vm.go:338-339 | the stop and start requests for a node are different requests |
| Text.IndexOf | provider/resource_link.go:296 | the position found holds the first occurrence of the separator, and there is none exactly when the separator is absent |
| Text.Cut | provider/resource_qemu_vm.go:513-518 | splitting at the first separator yields a separator-free prefix and the rest, whose join with the separator is the input |
| Text.SplitUnique | provider/resource_qemu_vm.go:514 | two splits of one string at a first separator agree |
| Text.SeparatorAt | provider/resource_qemu_vm.go:513-518 | in a string joined as prefix, separator, rest, the separator sits right after the prefix |
| Text.CutJoin | provider/resource_link.go:296-301 | joining a separator-free prefix and any rest with the separator, then cutting, gives both back |
| QemuVm.CreateProperties | provider/resource_qemu_vm.go:137-159 | the create bag always has the seven base properties with the configured adapter_type, adapters, bios_image, ram, cpus, platform and cdrom_image, the last even when empty; it has mac_address and options, with their values, exactly when set; and it carries the disk image exactly together with the "virtio" interface |
| QemuVm.CreatePayload | provider/resource_qemu_vm.go:162-180 | the create body has name, node type "qemu", compute "local", console_type and the bag; it has console, with the configured port, only when non-zero, and x and y whenever configured, zero included |
| QemuVm.CreatedNodeId | provider/resource_qemu_vm.go:194-207 | a node ID is taken exactly from a 201 or 200 response with a decodable body and a non-empty string node_id, and it is that node_id |
| QemuVm.CreateEffect | provider/resource_qemu_vm.go:122-229 | the POST comes first. Without a usable node ID, that POST is the only request and nothing is stored. Otherwise the new node ID is stored and the POST is followed by RestartEffect for that ID: the start, when start_vm is set, then the read |
| QemuVm.CreatedNodeOutcome | provider/resource_qemu_vm.go:208-229 | after a created node, a start is issued exactly when start_vm is set; a rejected start fails but keeps the new identity; otherwise create ends with the read of the new node, whose outcome it reports; the identity ends as the new node ID or as cleared by that read |
| QemuVm.StartAfterRequest | provider/resource_qemu_vm.go:210-228 | the same outcome for any one request followed by the restart and read |
| QemuVm.Create | provider/resource_qemu_vm.go:122-229 | the imperative create has exactly the effect CreateEffect describes |
| QemuVm.Hydrate | provider/resource_qemu_vm.go:257-275 | read stores the node's name, and x or y when the node reports a number there; every other attribute is kept |
| QemuVm.ReadEffect | provider/resource_qemu_vm.go:231-278 | one GET: 404 clears the identity without error, another status is an error that changes nothing, and 200 with a readable node refreshes name and coordinates |
| QemuVm.Read | provider/resource_qemu_vm.go:231-278 | the imperative read has exactly ReadEffect's effect |
| QemuVm.OverlayAt | provider/resource_qemu_vm.go:355-402 | after the overlay, an untouched key keeps its fetched value or stays absent, a changed key holds its new value, and a cleared key is gone |
| QemuVm.ApplyIntentAt | provider/resource_qemu_vm.go:355-357 | one write or delete changes its own key only |
| QemuVm.OverlayClears | provider/resource_qemu_vm.go:364-402 | clearing cdrom_image, mac_address or options removes that key; clearing hda_disk_image removes both disk keys; setting it also sets the interface to "virtio" |
| QemuVm.OverlayKeepsForeignKeys | provider/resource_qemu_vm.go:329-332 | a key that update never names keeps its fetched value or stays absent |
| QemuVm.WriteString | provider/resource_qemu_vm.go:355-357 | the in-place write of a changed string argument is the key's intent applied |
| QemuVm.WriteNumber | provider/resource_qemu_vm.go:358-360 | the in-place write of a changed int argument is the key's intent applied |
| QemuVm.WriteClearable | provider/resource_qemu_vm.go:377-383 | a changed clearable argument is written, or deleted when cleared |
| QemuVm.WriteDiskImage | provider/resource_qemu_vm.go:394-402 | the disk image and its interface are written or deleted together |
| QemuVm.ApplyOverlay | provider/resource_qemu_vm.go:355-402 | the step-by-step mutation of the fetched bag yields exactly the overlay |
| QemuVm.PutPayload | provider/resource_qemu_vm.go:405-428 | the PUT body always carries the merged bag. name and console_type appear exactly when changed, with the new values; console appears only when changed to a non-zero port, with that port; x and y appear only when changed and still set, zero included, with their values |
| QemuVm.RestartEffect | provider/resource_qemu_vm.go:452-471 | a start is issued exactly when a restart is wanted, and never a PUT or a stop; a rejected start fails before the re-read; otherwise the re-read decides; the identity changes only through that read, and only to empty |
| QemuVm.ModifyEffect | provider/resource_qemu_vm.go:335-471 | a stop is issued exactly when the node was running, and first. A stop answered with neither 200 nor 409 fails before the PUT. A rejected PUT ends the update. An accepted PUT leads to the restart and re-read. The identity changes only through that read |
| QemuVm.UpdateEffect | provider/resource_qemu_vm.go:280-472 | with no change, it is exactly a plain read. Otherwise it starts with the pre-read: 404 clears the identity with nothing else sent, another non-200 status, a transport fault or an undecodable 200 body is an error that changes nothing, and a readable node leads to the stop/modify/restart sequence. That sequence's PUT carries the fetched bag overlaid with the changes |
| QemuVm.UpdateAllAccepted | provider/resource_qemu_vm.go:305-471 | when every response is accepted, the trace is GET, a stop if the node was running, the PUT, a start if it was running or start_vm is set, and the re-read, whose outcome is reported |
| QemuVm.ScenarioCpus | provider/resource_qemu_vm.go:355-375 | a running node whose cpus change from 1 to 2 is stopped, sent its bag with ram kept and cpus 2, started and re-read |
| QemuVm.Modify | provider/resource_qemu_vm.go:334-471 | the imperative stop/PUT/restart has exactly ModifyEffect's effect |
| QemuVm.Restart | provider/resource_qemu_vm.go:452-471 | the imperative restart and re-read has exactly RestartEffect's effect |
| QemuVm.Update | provider/resource_qemu_vm.go:280-472 | the imperative update has exactly UpdateEffect's effect |
| QemuVm.DeleteEffect | provider/resource_qemu_vm.go:474-499 | one DELETE; 204 and 200 succeed and clear the identity, anything else fails and keeps it |
| QemuVm.Delete | provider/resource_qemu_vm.go:474-499 | the imperative delete has exactly DeleteEffect's effect |
| QemuVm.ParseImportId | provider/resource_qemu_vm.go:513-524 | an ID with a comma splits at its first comma into node and project, and the comma takes precedence. Otherwise an ID with a slash splits at its first slash into project and node. Any other ID is an error |
| QemuVm.ImportCommaRoundTrip | provider/resource_qemu_vm.go:513-515 | `node,project` with a comma-free node ID parses back to both parts |
| QemuVm.ImportSlashRoundTrip | provider/resource_qemu_vm.go:516-518 | `project/node` parses back to both parts when neither has a comma and the project has no slash |
| QemuVm.Import | provider/resource_qemu_vm.go:505-534 | a bad ID changes nothing; otherwise project_id is seeded and the identity becomes the node ID |
| Link.ProbeReply | provider/resource_link.go:32-49 | one listing aborts on a transport fault, an unreadable body or a body that is not a list of objects; otherwise it finds the node exactly when some record's string node_id is the target; the status is never looked at |
| Link.PollFrom | provider/resource_link.go:29-53 | at most ten listings are made. Every listing before the last lacked the node. The last one decides: the node is found, the poll aborts with that listing's cause, or ten listings without it fail naming the node |
| Link.PollSkip | provider/resource_link.go:31-51 | listings that lack the node only move the poll along |
| Link.PollFindsFirst | provider/resource_link.go:45-49 | the poll succeeds at the first listing that shows the node, after exactly that many requests |
| Link.PollExhausts | provider/resource_link.go:52 | ten listings without the node exhaust the poll with an error naming it |
| Link.Listings | provider/resource_link.go:30-32 | n listings are n GETs of the project's node list |
| Link.ScanForNode | provider/resource_link.go:45-49 | the scan finds the node exactly when the listing contains its node_id as a string |
| Link.ProbeListing | provider/resource_link.go:32-49 | the imperative probe of one listing agrees with ProbeReply |
| Link.WaitForNode | provider/resource_link.go:29-53 | the poller loop returns the poll's error and issues exactly as many listings as the poll counts |
| Link.PayloadRoundTrip | provider/resource_link.go:130-143 | the link body holds exactly two endpoints, A first, each with its adapter and port |
| Link.DecodeLinkId | provider/resource_link.go:165-168 | decoding the create response succeeds exactly for null or an object whose link_id is a string or null; it yields that link_id, and the empty string for null; anything else is a decode error |
| Link.PostEffect | provider/resource_link.go:150-171 | one POST of the link body; only 201 with a decodable body succeeds, and the returned link_id becomes both the identity and link_id |
| Link.AfterReadyA | provider/resource_link.go:125-171 | once A is listed, B is polled. If B is not ready, the operation fails naming B. Otherwise the POST follows both rounds of listings |
| Link.CreateEffect | provider/resource_link.go:112-173 | A is polled first; when A is not ready, B is not polled, nothing is posted and the error names A; a failure changes nothing |
| Link.PostOnlyWhenBothReady | provider/resource_link.go:122-127 | the link is posted exactly when both endpoints were listed in time |
| Link.ListingsHoldNoPost | provider/resource_link.go:30-32 | no POST is among the poller's listings |
| Link.ListingsJoin | provider/resource_link.go:122-127 | the two rounds of polling form one run of listings |
| Link.Create | provider/resource_link.go:112-173 | the imperative create has exactly CreateEffect's effect |
| Link.Post | provider/resource_link.go:150-171 | the imperative POST has exactly PostEffect's effect |
| Link.ReadEffect | provider/resource_link.go:175-201 | one GET; 404 clears the identity and 200 succeeds, both without error, and any other status is an error |
| Link.Read | provider/resource_link.go:175-201 | the imperative read has exactly ReadEffect's effect |
| Link.UpdateEffect | provider/resource_link.go:204-253 | a PUT of the two-endpoint body; a non-200 answer fails without a read, a 200 is followed by the read |
| Link.Update | provider/resource_link.go:204-253 | the imperative update has exactly UpdateEffect's effect |
| Link.DeleteEffect | provider/resource_link.go:256-287 | 404 and 204 clear the identity and succeed; any other status, 200 included, is an error that keeps it |
| Link.Delete | provider/resource_link.go:256-287 | the imperative delete has exactly DeleteEffect's effect |
| Link.ParseImportId | provider/resource_link.go:296-301 | an import ID parses exactly when it has a slash, splitting at the first one into project and link |
| Link.ImportRoundTrip | provider/resource_link.go:296-301 | `project/link` with a slash-free project ID parses back to both parts |
| Link.Import | provider/resource_link.go:288-309 | a bad ID changes nothing; otherwise project_id is seeded and the identity becomes the link ID |
| NodeCrud.Marshal | provider/resource_switch.go:14-21 | the node struct's JSON has name and node_type always, and compute_id, node_id, x and y only when non-empty or non-zero |
| NodeCrud.Unmarshal | provider/resource_switch.go:108-111 | decoding into the struct succeeds exactly when every known field present is of its type or null; it yields node_id and name, "" when absent |
| NodeCrud.MarshalRoundTrip | provider/resource_switch.go:14-21 | decoding the struct's own JSON gives the struct back |
| NodeCrud.DecodeNode | provider/resource_switch.go:108-111 | decoding succeeds exactly for null or an object whose fields decode; an object decodes field by field, null to the zero node; anything else is a decode error |
| NodeCrud.CreatedNodeId | provider/resource_switch.go:102-115 | a node ID is taken only from a 201 response whose decoded node_id is non-empty |
| NodeCrud.CreateEffect | provider/resource_switch.go:72-120 | one POST of the struct; success exactly when a node ID was returned, and then the identity and the kind's ID attribute are both that ID; a failure changes nothing |
| NodeCrud.Create | provider/resource_switch.go:72-120 | the imperative create has exactly CreateEffect's effect |
| NodeCrud.ReadEffect | provider/resource_switch.go:178-204 | one GET; 404 clears the identity and 200 succeeds, both without error; any other status is an error |
| NodeCrud.Read | provider/resource_switch.go:178-204 | the imperative read has exactly ReadEffect's effect |
| NodeCrud.UpdateData | provider/resource_switch.go:129-145 | the update map holds exactly the changed keys among name, compute_id, x and y with their new values, and is empty exactly when none changed |
| NodeCrud.BuildUpdateData | provider/resource_switch.go:129-145 | the step-by-step filling of the map yields exactly UpdateData |
| NodeCrud.UpdateEffect | provider/resource_switch.go:147-175 | an empty update map means no request and success; otherwise a PUT, failing on non-200, followed by a read on 200 |
| NodeCrud.Update | provider/resource_switch.go:123-176 | the imperative update has exactly UpdateEffect's effect |
| NodeCrud.DeleteEffect | provider/resource_switch.go:206-230 | only 204 succeeds and clears the identity; any other status, 404 included, fails and keeps it |
| NodeCrud.Delete | provider/resource_switch.go:206-230 | the imperative delete has exactly DeleteEffect's effect |
| Switch.CreatePayloadShape | provider/resource_switch.go:82-88 | the switch create body has node type "ethernet_switch" and the name, no node ID, and compute_id, x and y only when set |
| Switch.CreateStoresNodeId | provider/resource_switch.go:113-118 | a successful create stores a non-empty node ID as both the identity and switch_id |
| Cloud.CreatePayloadShape | provider/resource_cloud.go:81-87 | the cloud create body has node type "cloud" and the name, no node ID, and compute_id, x and y only when set |
| Cloud.CreateStoresNodeId | provider/resource_cloud.go:112-117 | a successful create stores a non-empty node ID as both the identity and cloud_id |
| Project.ProjectBody | provider/resource_project.go:14-17 | the project struct's JSON has the name, and project_id only when non-empty |
| Project.ProjectBodyRoundTrip | provider/resource_project.go:14-17 | the name and ID are read back from the struct's JSON |
| Project.SetupEffect | provider/resource_project.go:80-114 | the compute POST comes first and must answer 201 or 200; only then is the project opened, which must answer 200 or 201; neither step changes the stored identity |
| Project.CreatedProjectId | provider/resource_project.go:62-75 | a project ID is taken exactly from a 201 response with a decodable body and a string project_id, and it is that project_id |
| Project.CreateEffect | provider/resource_project.go:44-117 | the controller POST comes first. Without a project ID, nothing else is sent and nothing is stored. Otherwise the identity and project_id are stored before the compute and open steps, and they stay even when those fail |
| Project.Create | provider/resource_project.go:44-117 | the imperative create has exactly CreateEffect's effect |
| Project.Setup | provider/resource_project.go:80-114 | the imperative compute and open steps have exactly SetupEffect's effect |
| Project.ReadEffect | provider/resource_project.go:120-159 | an empty identity issues no request; 404, or a 200 body without a project_id, clears the identity; otherwise name and project_id are refreshed; another status, a transport fault or an undecodable 200 body is an error that changes nothing |
| Project.Read | provider/resource_project.go:120-159 | the imperative read has exactly ReadEffect's effect |
| Project.UpdateEffect | provider/resource_project.go:162-199 | a PUT of the name is issued only when it changed; a rejected PUT fails; otherwise the read follows |
| Project.Update | provider/resource_project.go:162-199 | the imperative update has exactly UpdateEffect's effect |
| Project.DeleteEffect | provider/resource_project.go:202-220 | the identity is cleared whenever a response arrived, whatever its status; only a transport fault is an error |
| Project.Delete | provider/resource_project.go:202-220 | the imperative delete has exactly DeleteEffect's effect |
| StartAll.StartId | provider/resource_start_all.go:55 | the action's identity is the project ID followed by "-start" |
| StartAll.ProjectOfStartId | provider/resource_start_all.go:55 | an identity recognised as an action identity is the action identity of the project recovered |
| StartAll.StartIdRoundTrip | provider/resource_start_all.go:55 | every project ID is recovered from its action identity |
| StartAll.StartIdInjective | provider/resource_start_all.go:55 | distinct projects get distinct action identities |
| StartAll.CreateEffect | provider/resource_start_all.go:34-57 | one start-all POST; success exactly on 200 or 204, which sets the derived identity; otherwise an error keeping the old one |
| StartAll.Create | provider/resource_start_all.go:34-57 | the imperative create has exactly CreateEffect's effect |
| StartAll.Update | provider/resource_start_all.go:64-67 | update has exactly create's effect |
| StartAll.Read | provider/resource_start_all.go:59-62 | read succeeds without any request |
| StartAll.Delete | provider/resource_start_all.go:69-74 | delete clears the identity without any request |
| StartAll.ParseImportId | provider/resource_start_all.go:82-84 | an import ID is accepted exactly when non-empty, as the project ID |
| StartAll.Import | provider/resource_start_all.go:75-92 | an empty ID is an error that changes nothing; otherwise project_id is the raw ID and the identity its action identity |
| StartAll.ImportedIdNamesProject | provider/resource_start_all.go:86-90 | an imported action's identity leads back to the raw ID |
| Listing.FirstNamed | provider/data_source_node_id.go:56-63 | the index found is the first record whose name is the requested string, and there is none exactly when no record has that name |
| Listing.FirstNamedIgnoresRest | provider/data_source_template_id.go:49-58 | records after the first match do not affect the search |
| NodeIdSource.ReadEffect | provider/data_source_node_id.go:35-66 | one listing; non-200 or an undecodable body is an error; no match is an error naming the node and the project; the first match's node_id becomes both the identity and node_id |
| NodeIdSource.Read | provider/data_source_node_id.go:35-66 | the search loop has exactly ReadEffect's effect |
| LinkIdSource.FirstUsable | provider/data_source_link_id.go:64-72 | the index found is the first link with the requested name and a non-empty string link_id, and there is none exactly when no link qualifies |
| LinkIdSource.SkipsUnusable | provider/data_source_link_id.go:65-66 | a link with the name but no usable link_id is skipped and the search continues |
| LinkIdSource.ReadEffect | provider/data_source_link_id.go:38-75 | one listing; non-200 or an undecodable body is an error; no qualifying link is an error naming the link and the project; otherwise the link_id becomes the identity |
| LinkIdSource.Search | provider/data_source_link_id.go:64-72 | the search loop finds exactly the first usable link |
| LinkIdSource.Read | provider/data_source_link_id.go:38-75 | the imperative read has exactly ReadEffect's effect |
| TemplateIdSource.TemplateIdOf | provider/data_source_template_id.go:49-61 | no template with the name is an error naming it; the first match decides, failing when its template_id is not a string and otherwise yielding it |
| TemplateIdSource.DecidedByFirstMatch | provider/data_source_template_id.go:49-58 | templates after the first match are never examined |
| TemplateIdSource.ReadEffect | provider/data_source_template_id.go:28-62 | one listing; non-200 or an undecodable body is an error; otherwise the lookup's error or its ID, which becomes the identity and template_id |
| TemplateIdSource.Read | provider/data_source_template_id.go:28-62 | the search loop has exactly ReadEffect's effect |
| Utiles.FirstProjectId | provider/utiles.go:10-26 | a transport fault or undecodable body is an error; an empty list is an error; otherwise the first project's project_id; the status is not checked |
| Utiles.IdOf | provider/utiles.go:43-47 | template_id is preferred and id is the fallback on the same record |
| Utiles.TemplateIdByName | provider/utiles.go:41-50 | the ID returned is that of the first template with the name and a string template_id or id; the search fails, naming the template, exactly when no template qualifies |
| Utiles.SkipsIdless | provider/utiles.go:41-49 | a name match with neither ID is skipped and the search continues |
| Utiles.TemplateId | provider/utiles.go:29-50 | the listing's transport and decode errors, otherwise the search over the decoded templates |

## Left out

- HTTP transport, URL formatting, headers and the provider's host configuration are not modelled. A request is an abstract verb, path and body. A response is a scripted input, and a transport fault is an error of its own.
- JSON encoding is abstracted to a `Value` type with integer numbers, so an encoding failure (`json.Marshal` errors) cannot arise. The float64 to int number conversion of the QEMU read is modelled as an integer number read directly.
- Go's JSON decoding into structs is modelled only for the fields the provider reads. Case-insensitive key matching and type errors in fields it never looks at are not modelled.
- Reading a response body for an error message, and the exact error wording, are left out. Errors carry only their kind and the identifiers they name.
- `time.Sleep` between polls is left out, since the model has no clock.
- The Terraform SDK is not modelled. This covers `HasChange`, `GetOk`, `GetOkExists`, schema defaults, ForceNew, and the errors `d.Set` returns, which the provider ignores. Changed flags and configured values are inputs (`Plan`, `Changes`, `Settings`, `Args`).
- ImportStatePassthrough for switch, cloud and project keeps the identity unchanged and is not modelled.
- resource_docker.go, resource_templates.go, resource_router.go, resource_node.go and provider.go are not part of this model.
- QemuVm.PutPayload: the PUT body is built as a map comprehension rather than through the source's incremental assignments.
- QemuVm.Overlay: the overlay is likewise a function of the whole bag. ApplyOverlay is the imperative, key-by-key version, and it is proved equal to the function.
- Link.EndpointOf: struct decoding of the `nodes` list in link responses is not modelled. Only link_id is read back.
- The Cloud and Switch read, update and delete are the shared `NodeCrud` members. Their source lines in resource_cloud.go (update 122-175, read 177-202, delete 204-228) mirror the cited switch lines.
