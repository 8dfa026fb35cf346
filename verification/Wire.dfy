/** What Core sends: the part of the wire contract the agent decides on. */
module Wire {

  /** A machine's destination. `Unknown` is one this build cannot read. */
  datatype Lifecycle = Running | Stopped | Absent | Unknown

  /** One machine as a view names it. */
  datatype InstanceSpec = InstanceSpec(id: string, intent: Lifecycle, built: bool)

  /** A view with a body. An `unchanged` answer carries none (see `Reconcile`). */
  datatype View = View(version: nat, instances: seq<InstanceSpec>)

  ghost predicate Names(specs: seq<InstanceSpec>, id: string) {
    exists i :: 0 <= i < |specs| && specs[i].id == id
  }

  ghost predicate NamesRunning(specs: seq<InstanceSpec>, id: string) {
    exists i :: 0 <= i < |specs| && specs[i].id == id && specs[i].intent == Running
  }
}
