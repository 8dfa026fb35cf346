/** The hypervisor's guests and the clone journal's records, as both models of
    the create path hold them (`crates/onv-driver-proxmox/src/pending.rs`). */
module CloneJournal {
  import opened Wrappers

  /** What a guest's tags say: nothing, one machine's claim, or something else. */
  datatype Tags = Untagged | Claim(id: string) | OtherTags

  /** A guest: its tags, the stamp its description opens with, whether it sits in
      the buyers' pool, whether a create gave it its machine's configuration and
      disk, and whether the cluster's listing shows it yet. */
  datatype Vm = Vm(
    tags: Tags, stamp: Option<string>, pooled: bool, configured: bool, running: bool, listed: bool, volumes: set<string>
  )

  datatype Stage = Cloning | Abandoned

  /** One journal record; records are kept by VMID. */
  datatype Pending = Pending(id: string, upid: bool, stage: Stage, volids: set<string>)

  datatype Task = StillRuns | EndedWell | EndedBadly
}
