/** Ownership of virtual machines (server_manager/agent_runtime_manager/providers/proxmox_vm.py). */
module Proxmox {
  import opened Wrappers
  import opened SandboxNetwork
  import opened Fleet

  const CREATED_KEY := "created_by_agent_runtime_manager"
  const ID_KEY := "server_runtime_id"

  const OWNERSHIP_REQUIRED_KEYS := {
    "server_runtime_id", "acms_agent_id", "provisioning_request_id", "provider", "node", "vmid",
    "created_by_agent_runtime_manager", "created_at", "template_source"
  }

  /** Owned; refused with an OwnershipError; or another exception. */
  datatype Ownership = Owned | Refused | Crashed

  /** Whether the two reads of the check got through; a failed read looks like an empty answer. */
  datatype OwnershipReads = OwnershipReads(found: bool, config: bool)

  predicate Truthy(j: Json) {
    match j
    case JString(s) => s != ""
    case JNumber(n) => n != 0
    case JBool(b) => b
    case JNull => false
  }

  function VerifyOwnership(vms: map<int, VM>, node: string, vmid: int, id: Id, r: Row, protectedVmids: set<int>,
                           answers: OwnershipReads): Ownership
  {
    if vmid in protectedVmids then Refused
    else if !answers.found || Lookup(vms, node, vmid).None? then Refused
    else if !r.armCreated then Refused
    else
      match if answers.config then Lookup(vms, node, vmid).value.description else Unparseable
      case Unparseable => Refused
      case NotAnObject => Crashed
      case Object(marker) =>
        if CREATED_KEY !in marker || !Truthy(marker[CREATED_KEY]) then Refused
        else if ID_KEY !in marker || marker[ID_KEY] != JString(id) then Refused
        else if exists k :: k in OWNERSHIP_REQUIRED_KEYS && k !in marker && k != CREATED_KEY then Refused
        else Owned
  }

  function OwnershipMarker(id: Id, r: Row, node: string, vmid: int, template: string, createdAt: Json): map<string, Json> {
    map[
      "server_runtime_id" := JString(id),
      "acms_agent_id" := JString(r.agentId),
      "provisioning_request_id" := JString(r.requestId),
      "provider" := JString("proxmox_vm"),
      "node" := JString(node),
      "vmid" := JNumber(vmid),
      "created_by_agent_runtime_manager" := JBool(true),
      "created_at" := createdAt,
      "template_source" := JString(template),
      "managed_by" := JString("server-manager/agent-runtime-manager")
    ]
  }

  /** The description says the VM belongs to exactly this runtime. */
  predicate Names(d: Description, id: Id) {
    d.Object? && ID_KEY in d.fields && d.fields[ID_KEY] == JString(id)
  }

  /** An unprotected VM that exists and is marked as this runtime's. */
  predicate OwnTarget(target: Option<VM>, vmid: int, id: Id, protectedVmids: set<int>) {
    target.Some? && vmid !in protectedVmids && Names(target.value.description, id)
  }

  /** The check never passes for a VM that is missing, protected or marked for another runtime. */
  lemma OwnedMeansOwn(vms: map<int, VM>, node: string, vmid: int, id: Id, r: Row, protectedVmids: set<int>, answers: OwnershipReads)
    requires VerifyOwnership(vms, node, vmid, id, r, protectedVmids, answers) == Owned
    ensures OwnTarget(Lookup(vms, node, vmid), vmid, id, protectedVmids) && r.armCreated
  {
  }

  /** The marker written at provisioning passes the check for its own runtime and for no other. */
  lemma MarkerRoundTrip(vms: map<int, VM>, node: string, vmid: int, id: Id, r: Row, template: string, createdAt: Json,
                        other: Id, o: Row, protectedVmids: set<int>, answers: OwnershipReads)
    requires Lookup(vms, node, vmid).Some?
    requires vms[vmid].description == Object(OwnershipMarker(id, r, node, vmid, template, createdAt))
    requires r.armCreated && vmid !in protectedVmids
    ensures VerifyOwnership(vms, node, vmid, id, r, protectedVmids, OwnershipReads(true, true)) == Owned
    ensures other != id ==> VerifyOwnership(vms, node, vmid, other, o, protectedVmids, answers) == Refused
  {
  }

  // ------------------------------------------------------------------ MAC addresses

  type Byte = b: int | 0 <= b < 256

  function HexDigit(n: int): (c: char)
    requires 0 <= n < 16
    ensures !IsSpace(c) && IsHex(NormChar(c))
  {
    if n < 10 then '0' + n as char else 'A' + (n - 10) as char
  }

  /** A fixed prefix and three random bytes in upper-case hex. */
  function GenerateMac(b0: Byte, b1: Byte, b2: Byte): string {
    ['B', 'C', ':', '2', '4', ':', '1', '1', ':',
     HexDigit(b0 / 16), HexDigit(b0 % 16), ':', HexDigit(b1 / 16), HexDigit(b1 % 16), ':',
     HexDigit(b2 / 16), HexDigit(b2 % 16)]
  }

  /** A generated address is one the reservation service accepts. */
  lemma GeneratedMacIsValid(b0: Byte, b1: Byte, b2: Byte)
    ensures ValidMac(GenerateMac(b0, b1, b2))
  {
    var m := GenerateMac(b0, b1, b2);
    assert m[16] == HexDigit(b2 % 16);
    assert Strip(m) == m;
  }
}
