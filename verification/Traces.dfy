/** What may be said of a log of audit events and provider calls. */
module Traces {
  import opened Wrappers
  import opened SandboxNetwork
  import opened Fleet
  import opened Proxmox

  datatype Kind = CloneCall | CompleteEvent | FailedEvent | CountedStart

  predicate Matches(e: Entry, kind: Kind, id: Id) {
    e.runtime == id &&
    match kind
    case CloneCall => e.Call? && e.op == Clone
    case CompleteEvent => e.Audit? && e.action == "provision_complete"
    case FailedEvent => e.Audit? && e.action == "provision_failed"
    case CountedStart => e.Call? && e.actor == Reconciler && e.op == Start && e.returned
  }

  function Count(log: seq<Entry>, kind: Kind, id: Id): nat {
    if log == [] then 0 else
      Count(log[..|log| - 1], kind, id) + if Matches(log[|log| - 1], kind, id) then 1 else 0
  }

  lemma CountAppend(log: seq<Entry>, e: Entry, kind: Kind, id: Id)
    ensures Count(log + [e], kind, id) == Count(log, kind, id) + if Matches(e, kind, id) then 1 else 0
  {
    assert (log + [e])[..|log|] == log;
  }

  /** Whoever acts on a VM acts on its own: the reconciler only starts and stops, the API only stops and destroys,
      each on an existing, unprotected VM marked as exactly that runtime's. */
  predicate SafeCall(e: Entry, protectedVmids: set<int>)
    requires e.Call?
  {
    match e.actor
    case Reconciler => e.op in {Start, Shutdown, StopForce} && OwnTarget(e.target, e.vmid, e.runtime, protectedVmids)
    case Api => e.op in {Shutdown, StopForce, Destroy} && OwnTarget(e.target, e.vmid, e.runtime, protectedVmids)
    case Provisioner =>
      && e.op in {Clone, Configure, Start}
      && (e.op == Start ==> e.target.Some? && Names(e.target.value.description, e.runtime))
  }

  predicate SafeEntry(e: Entry, protectedVmids: set<int>) {
    e.Call? ==> SafeCall(e, protectedVmids)
  }

  /** A sandbox boots on a NIC whose MAC a tagged reservation already pins to an address. */
  predicate PinnedStart(e: Entry) {
    e.Call? && e.actor == Provisioner && e.op == Start ==>
      && e.target.Some? && e.target.value.mac.Some?
      && exists r :: r in e.reserved && Tagged(r) && r.ip.Some? && MacNorm(r.hw) == MacNorm(e.target.value.mac.value)
  }

  /** The log only grows, and only by entries about `id`. */
  ghost predicate Extends(before: seq<Entry>, after: seq<Entry>, id: Id) {
    before <= after && forall i :: |before| <= i < |after| ==> after[i].runtime == id
  }
}
