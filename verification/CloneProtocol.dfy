/**
 The clone journal as a protocol (`src/instance.rs`): one agent creating,
 rolling back and recovering machines, one call to the hypervisor or one write
 of the journal at a time. Between any two of them the agent may die, and
 others may delete machines and give their numbers to new ones.
 */
module CloneProtocol {
  import opened Wrappers
  import opened CloneJournal

  /** The calls of a create once it has a record, of a rollback, and of the
      settling of one record. */
  datatype Phase =
    | Recorded | Accepted | Waiting | Cloned | Claiming | Configuring | Completing | Starting
    | GivingUp | Marked | Proven | Halted | Removed
    | Owing | Judging | Suspecting | Retaking

  /** Where the agent is, which it forgets when it dies. `read`: this create could
      read the journal. `seen` is the one thing a phase remembers: `Recorded`,
      the same; `Proven` and `Halted`, that nobody deleted what is at `v` since
      its stamp was read; `Judging`, that the clone task ended well;
      `Suspecting`, that the listing showed the guest in the buyers' pool. */
  datatype Pc =
    | Idle
    | NotThere(id: string)
    | NotOwed(id: string, read: bool)
    | NotStamped(id: string, read: bool)
    | Numbered(id: string, v: nat, read: bool)
    | At(phase: Phase, v: nat, rec: Pending, seen: bool)

  /** A record's file after a rewrite, which truncates it first: as it was, what
      does not parse, or the new one. */
  datatype File = Old | Torn | New

  /** How a rewrite ends: done; failed, and the agent told so; or cut by its death. */
  datatype Write = Done | Failed(left: File) | Died(left: File)

  /** `journal` holds the records that can be read: what does not parse is as good
      as none to every reader of it. */
  datatype State = State(
    vms: map<nat, Vm>,
    storage: set<string>,
    tasks: map<nat, Task>,
    journal: map<nat, Pending>,
    pc: Pc
  )

  datatype Step =
      // A create.
    | LookForIt(id: string)
    | AskOwed(read: bool)
    | AskStamped
    | SayLost
    | NextId(v: nat)
    | WriteRecord(write: Write)
    | AskClone(vm: Vm, answered: bool)
    | CloneRefused
    | WriteTask(write: Write)
    | SeeTask
    | NoteVolumes(read: bool, write: Write)
    | PutClaim(applied: bool, done: bool)
    | Configure(applied: bool, done: bool)
    | Complete
    | Start(applied: bool, done: bool)
      // A rollback.
    | WriteAbandoned(write: Write)
    | ReadStamp(read: bool)
    | Stop(applied: bool)
    | Destroy(done: bool, seen: bool, left: set<string>)
    | AskVolumes(answered: bool, gone: set<string>)
      // A pass settling one record, and a delete's answer.
    | Settle(v: nat)
    | SeeOwed(answered: bool)
    | Judge(answered: bool)
    | ReadSuspect(read: bool)
    | Retake(applied: bool, done: bool)
    | SayGone(id: string, read: bool)
      // The agent's end, and everybody else.
    | Crash
    | OthersDelete(v: nat)
    | OthersCreate(v: nat, vm: Vm)
    | OthersSwitch(v: nat, on: bool)
    | OthersStore(storage: set<string>)
    | ShowListed(v: nat)
    | TaskEnds(v: nat, well: bool)

  ghost predicate Owed(s: State, id: string) {
    exists v :: v in s.journal && s.journal[v].id == id
  }

  /** What `the_guest` finds: a listed guest carrying the claim. */
  ghost predicate ClaimListed(s: State, id: string) {
    exists v :: v in s.vms && s.vms[v].listed && s.vms[v].tags == Claim(id)
  }

  /** What `stamped_guests` finds: listed in the pool, stamped, not claimed. */
  ghost predicate StampListed(s: State, id: string) {
    exists v :: v in s.vms && s.vms[v].listed && s.vms[v].pooled && s.vms[v].tags != Claim(id) && s.vms[v].stamp == Some(id)
  }

  /** A clone whose task id did not reach the journal is listed already: what
      recovery reads the listing on. */
  predicate Prompt(s: State, v: nat) {
    v in s.vms ==> s.vms[v].listed
  }

  /** No clone of `id` is missing from the listing: what a create that cannot read
      the journal needs. */
  ghost predicate AllListed(s: State, id: string) {
    forall v :: v in s.vms && s.vms[v].stamp == Some(id) ==> s.vms[v].listed
  }

  predicate In(s: State, phase: Phase) {
    s.pc.At? && s.pc.phase == phase
  }

  /** `careful`: a clone the journal does not say enough of, or that is not read
      there, is listed already. */
  ghost predicate Can(s: State, step: Step, careful: bool) {
    match step
    case LookForIt(id) => s.pc.Idle? && !ClaimListed(s, id)
    case AskOwed(read) => s.pc.NotThere? && (careful && !read ==> AllListed(s, s.pc.id))
    case AskStamped => s.pc.NotOwed?
    case SayLost => s.pc.NotStamped?
    case NextId(v) => s.pc.NotStamped? && v !in s.vms
    case WriteRecord(_) => s.pc.Numbered?
    case AskClone(vm, answered) =>
      && In(s, Recorded) && s.pc.v !in s.vms
      && vm.tags == Untagged && vm.stamp == Some(s.pc.rec.id) && vm.pooled && !vm.configured && !vm.running
      && (careful && !answered ==> vm.listed)
    case CloneRefused => In(s, Recorded)
    case WriteTask(write) => In(s, Accepted) && (careful && Left(write) != New ==> Prompt(s, s.pc.v))
    case SeeTask => In(s, Waiting)
    case NoteVolumes(_, _) => In(s, Cloned)
    case PutClaim(applied, done) => (done ==> applied) && In(s, Claiming)
    case Configure(applied, done) => (done ==> applied) && In(s, Configuring)
    case Complete => In(s, Completing)
    case Start(applied, done) => (done ==> applied) && In(s, Starting)
    case WriteAbandoned(_) => In(s, GivingUp)
    case ReadStamp(_) => In(s, Marked)
    case Stop(_) => In(s, Proven)
    case Destroy(_, _, _) => In(s, Halted)
    case AskVolumes(_, _) => In(s, Removed)
    case Settle(v) => s.pc.Idle? && v in s.journal
    case SeeOwed(_) => In(s, Owing)
    case Judge(_) => In(s, Judging)
    case ReadSuspect(_) => In(s, Suspecting)
    case Retake(applied, done) => (done ==> applied) && In(s, Retaking)
    case SayGone(id, read) => s.pc.Idle? && (read ==> !Owed(s, id))
    case Crash => careful && In(s, Accepted) ==> Prompt(s, s.pc.v)
    case OthersDelete(v) => v in s.vms
    case OthersCreate(v, vm) => v !in s.vms && vm.stamp == None && vm.listed
    case OthersSwitch(v, _) => v in s.vms
    case OthersStore(_) => true
    case ShowListed(v) => v in s.vms
    case TaskEnds(v, _) => v in s.tasks && s.tasks[v] == StillRuns
  }

  // ---- One step's effect on the state ----

  function Left(write: Write): File {
    if write.Done? then New else write.left
  }

  /** The records that can be read, once `v`'s was rewritten. */
  function Rewritten(journal: map<nat, Pending>, v: nat, rec: Pending, write: Write): map<nat, Pending> {
    match Left(write)
    case Old => journal
    case Torn => journal - {v}
    case New => journal[v := rec]
  }

  function Next(s: State, phase: Phase): State
    requires s.pc.At?
  {
    s.(pc := s.pc.(phase := phase))
  }

  /** The call ends here, whatever it had in mind. */
  function Return(s: State): State {
    s.(pc := Idle)
  }

  function RecordGoes(s: State): State
    requires s.pc.At?
  {
    s.(journal := s.journal - {s.pc.v}, pc := Idle)
  }

  function Edited(vms: map<nat, Vm>, v: nat, edit: Vm -> Vm): map<nat, Vm> {
    if v in vms then vms[v := edit(vms[v])] else vms
  }

  ghost function Do(s: State, step: Step, careful: bool): State
    requires Can(s, step, careful)
  {
    match step
    case LookForIt(id) => s.(pc := NotThere(id))
    case AskOwed(read) => if read && Owed(s, s.pc.id) then Return(s) else s.(pc := NotOwed(s.pc.id, read))
    case AskStamped => if StampListed(s, s.pc.id) then Return(s) else s.(pc := NotStamped(s.pc.id, s.pc.read))
    case SayLost => Return(s)
    case NextId(v) => s.(pc := Numbered(s.pc.id, v, s.pc.read))
    case WriteRecord(write) =>
      var rec := Pending(s.pc.id, false, Cloning, {});
      s.(journal := Rewritten(s.journal, s.pc.v, rec, write),
         pc := if write.Done? then At(Recorded, s.pc.v, rec, s.pc.read) else Idle)
    case AskClone(vm, answered) =>
      var t := s.(vms := s.vms[s.pc.v := vm], tasks := s.tasks[s.pc.v := StillRuns]);
      if answered then Next(t, Accepted) else Return(t)
    case CloneRefused => Return(s)
    case WriteTask(write) =>
      var rec := s.pc.rec.(upid := true);
      s.(journal := Rewritten(s.journal, s.pc.v, rec, write), pc := if write.Done? then At(Waiting, s.pc.v, rec, false) else Idle)
    case SeeTask =>
      var task := Lookup(s.tasks, s.pc.v);
      if task == Some(EndedWell) then Next(s, Cloned)
      else if task == Some(EndedBadly) then Next(s, GivingUp)
      else Return(s)
    case NoteVolumes(read, write) =>
      if read && s.pc.v in s.vms then
        var rec := s.pc.rec.(volids := s.vms[s.pc.v].volumes);
        s.(journal := Rewritten(s.journal, s.pc.v, rec, write), pc := if write.Died? then Idle else At(Claiming, s.pc.v, rec, false))
      else Next(s, Claiming)
    case PutClaim(applied, done) =>
      var t := if applied then s.(vms := Edited(s.vms, s.pc.v, (vm: Vm) => vm.(tags := Claim(s.pc.rec.id)))) else s;
      Next(t, if done then Configuring else GivingUp)
    case Configure(applied, done) =>
      var edit := (vm: Vm) => vm.(tags := Claim(s.pc.rec.id), stamp := Some(s.pc.rec.id), configured := true);
      var t := if applied then s.(vms := Edited(s.vms, s.pc.v, edit)) else s;
      Next(t, if done then Completing else GivingUp)
    case Complete => Next(s.(journal := s.journal - {s.pc.v}), Starting)
    case Start(applied, done) =>
      var t := if applied then s.(vms := Edited(s.vms, s.pc.v, (vm: Vm) => vm.(running := true))) else s;
      if done then Return(t) else Next(t, GivingUp)
    case WriteAbandoned(write) =>
      var t := s.(journal := Rewritten(s.journal, s.pc.v, s.pc.rec.(stage := Abandoned), write));
      if write.Died? then Return(t) else Next(t, Marked)
    case ReadStamp(read) =>
      if !read || s.pc.v !in s.vms then Return(s)
      else if s.vms[s.pc.v].stamp != Some(s.pc.rec.id) then RecordGoes(s)
      else s.(pc := At(Proven, s.pc.v, s.pc.rec, true))
    case Stop(applied) =>
      var t := if applied then s.(vms := Edited(s.vms, s.pc.v, (vm: Vm) => vm.(running := false))) else s;
      Next(t, Halted)
    case Destroy(done, seen, left) =>
      if done && s.pc.v in s.vms then
        var t := s.(vms := s.vms - {s.pc.v}, storage := s.storage - (s.vms[s.pc.v].volumes - left));
        if seen then Next(t, Removed) else Return(t)
      else Return(s)
    case AskVolumes(answered, gone) =>
      if !answered then Return(s)
      else
        var t := s.(storage := s.storage - (gone * s.pc.rec.volids));
        if s.pc.rec.volids * t.storage == {} then RecordGoes(t) else Return(t)
    case Settle(v) =>
      var rec := s.journal[v];
      var task := Lookup(s.tasks, v);
      if rec.stage == Abandoned then s.(pc := At(Owing, v, rec, false))
      else if !rec.upid || task == Some(EndedBadly) then s.(pc := At(Judging, v, rec, false))
      else if task == Some(EndedWell) then s.(pc := At(Judging, v, rec, true))
      else Return(s)
    case SeeOwed(answered) =>
      if !answered then Return(s)
      else if s.pc.v in s.vms && s.vms[s.pc.v].listed then Next(s, GivingUp)
      else Next(s, Removed)
    case Judge(answered) =>
      if !answered then Return(s)
      else if s.pc.v !in s.vms || !s.vms[s.pc.v].listed then RecordGoes(s)
      else if s.vms[s.pc.v].tags == Claim(s.pc.rec.id) then RecordGoes(s)
      else if s.pc.seen && s.vms[s.pc.v].tags == Untagged then s.(pc := At(Suspecting, s.pc.v, s.pc.rec, s.vms[s.pc.v].pooled))
      else RecordGoes(s)
    case ReadSuspect(read) =>
      if !read || s.pc.v !in s.vms then Return(s)
      else if s.pc.seen && s.vms[s.pc.v].stamp == Some(s.pc.rec.id) then Next(s, Retaking)
      else RecordGoes(s)
    case Retake(applied, done) =>
      var t := if applied then s.(vms := Edited(s.vms, s.pc.v, (vm: Vm) => vm.(tags := Claim(s.pc.rec.id)))) else s;
      if done then Next(t, GivingUp) else Return(t)
    case SayGone(_, _) => s
    case Crash => Return(s)
    case OthersDelete(v) =>
      s.(vms := s.vms - {v}, pc := if s.pc.At? && s.pc.v == v && (s.pc.phase == Proven || s.pc.phase == Halted) then s.pc.(seen := false) else s.pc)
    case OthersCreate(v, vm) => s.(vms := s.vms[v := vm])
    case OthersSwitch(v, on) => s.(vms := s.vms[v := s.vms[v].(running := on)])
    case OthersStore(storage) => s.(storage := storage)
    case ShowListed(v) => s.(vms := s.vms[v := s.vms[v].(listed := true)])
    case TaskEnds(v, well) =>
      s.(tasks := s.tasks[v := if well then EndedWell else EndedBadly],
         vms := Edited(s.vms, v, (vm: Vm) => vm.(listed := true)))
  }

  ghost predicate IsRun(s: State, steps: seq<Step>, careful: bool)
    decreases |steps|
  {
    steps == [] || (Can(s, steps[0], careful) && IsRun(Do(s, steps[0], careful), steps[1..], careful))
  }

  ghost function End(s: State, steps: seq<Step>, careful: bool): State
    requires IsRun(s, steps, careful)
    decreases |steps|
  {
    if steps == [] then s else End(Do(s, steps[0], careful), steps[1..], careful)
  }

  /** A host with no machine of this marketplace's on it, and nothing owed. */
  ghost predicate Fresh(s: State) {
    s.pc.Idle? && s.journal == map[] && forall v :: v in s.vms ==> s.vms[v].stamp == None && s.vms[v].listed
  }
}
