/** What every run of `CloneProtocol` keeps. */
module CloneSafety {
  import opened Wrappers
  import opened CloneJournal
  import opened CloneProtocol

  /** **At most one machine per id.** */
  ghost predicate AtMostOne(s: State) {
    forall v, w :: v in s.vms && w in s.vms && s.vms[v].stamp.Some? && s.vms[v].stamp == s.vms[w].stamp ==> v == w
  }

  /** The one number each id's machine may be at. */
  type Homes = map<string, nat>

  /** Every stamped guest is at its id's number, and a record's number holds its
      own machine or none of ours. */
  ghost predicate AtHome(s: State, homes: Homes) {
    && (forall v :: v in s.vms && s.vms[v].stamp.Some? ==> Lookup(homes, s.vms[v].stamp.value) == Some(v))
    && (forall v :: v in s.journal && v in s.vms && s.vms[v].stamp.Some? ==> s.vms[v].stamp.value == s.journal[v].id)
  }

  /** What is stamped can be found, by its pool or by its claim; and a guest not
      listed yet is a clone in flight, recorded with its task. */
  ghost predicate Findable(s: State) {
    && (forall v :: v in s.vms && s.vms[v].stamp.Some? ==> s.vms[v].pooled || s.vms[v].tags == Claim(s.vms[v].stamp.value))
    && (forall v :: v in s.vms && !s.vms[v].listed ==> InFlight(s, v))
  }

  ghost predicate InFlight(s: State, v: nat) {
    && v in s.vms && s.vms[v].stamp.Some? && s.vms[v].tags == Untagged
    && v in s.tasks && s.tasks[v] == StillRuns
    && if In(s, Accepted) && s.pc.v == v then s.vms[v].stamp.value == s.pc.rec.id
       else v in s.journal && s.journal[v].upid && s.journal[v].stage == Cloning && s.vms[v].stamp.value == s.journal[v].id
  }

  ghost predicate NoneStamped(s: State, id: string) {
    forall v :: v in s.vms ==> s.vms[v].stamp != Some(id)
  }

  ghost predicate NoneClaimed(s: State, id: string) {
    forall v :: v in s.vms && s.vms[v].stamp == Some(id) ==> s.vms[v].tags != Claim(id)
  }

  /** `v` holds nothing of ours but `id`'s. */
  ghost predicate Its(s: State, id: string, v: nat) {
    && (v in s.vms && s.vms[v].stamp.Some? ==> s.vms[v].stamp.value == id)
    && (v in s.journal ==> s.journal[v].id == id)
  }

  /** The number is this clone's still, unless somebody deleted it since; then
      what is there, if anything, carries no stamp of ours. */
  ghost predicate StampedIfSame(s: State, v: nat, rec: Pending, same: bool) {
    if same then v in s.vms && s.vms[v].stamp == Some(rec.id) else v in s.vms ==> s.vms[v].stamp == None
  }

  /** What the agent has learned so far in this call. */
  ghost predicate Knows(s: State, homes: Homes) {
    && (s.pc.NotThere? || s.pc.NotOwed? ==> NoneClaimed(s, s.pc.id))
    && ((s.pc.NotOwed? || s.pc.NotStamped? || s.pc.Numbered?) && s.pc.read ==> !Owed(s, s.pc.id))
    && (s.pc.NotOwed? ==> AllListed(s, s.pc.id))
    && (s.pc.NotStamped? || s.pc.Numbered? ==> NoneStamped(s, s.pc.id))
    && (s.pc.Numbered? && s.pc.v in s.vms ==> s.vms[s.pc.v].stamp == None)
    && (s.pc.At? ==> KnowsAt(s, homes, s.pc.phase, s.pc.v, s.pc.rec, s.pc.seen))
  }

  /** The create may still stamp what is at its number. */
  predicate IsCreating(phase: Phase) {
    phase == Recorded || phase == Accepted || phase == Waiting || phase == Cloned || phase == Claiming || phase == Configuring
  }

  ghost predicate OnlyRecord(s: State, id: string, v: nat) {
    forall w :: w in s.journal && s.journal[w].id == id ==> w == v
  }

  ghost predicate KnowsAt(s: State, homes: Homes, phase: Phase, v: nat, rec: Pending, seen: bool) {
    && Its(s, rec.id, v)
    && (IsCreating(phase) ==> Lookup(homes, rec.id) == Some(v))
    && (phase == Recorded ==> NoneStamped(s, rec.id) && (seen ==> OnlyRecord(s, rec.id, v)))
    && (phase == Recorded || phase == Accepted || phase == Waiting || phase == Cloned ==> rec.stage == Cloning)
    && (phase == Waiting || phase == Cloned ==> rec.upid)
    && (phase == Recorded || phase == Accepted || phase == Waiting || (v in s.vms ==> s.vms[v].listed))
    && (phase == Proven || phase == Halted ==> StampedIfSame(s, v, rec, seen))
    && (phase == Removed && v in s.vms ==> s.vms[v].stamp == None)
    && (phase == Completing ==> IsComplete(s, v, rec.id))
  }

  /** What is at `v`, unless it is not this marketplace's at all, carries the id's
      claim and stamp, and was given its machine's configuration. */
  ghost predicate IsComplete(s: State, v: nat, id: string) {
    v in s.vms && s.vms[v].stamp.Some? ==> s.vms[v].stamp.value == id && s.vms[v].tags == Claim(id) && s.vms[v].configured
  }

  ghost predicate Inv(s: State, homes: Homes) {
    AtHome(s, homes) && Findable(s) && Knows(s, homes)
  }

  // ---- The three ways a call goes on ----

  lemma MayReturn(s: State, homes: Homes)
    requires Inv(s, homes) && (In(s, Accepted) ==> Prompt(s, s.pc.v))
    ensures Inv(Return(s), homes)
  {
  }

  lemma MayGoOn(s: State, homes: Homes, phase: Phase, v: nat, rec: Pending, seen: bool)
    requires Inv(s, homes) && !In(s, Accepted) && phase != Accepted && KnowsAt(s, homes, phase, v, rec, seen)
    ensures Inv(s.(pc := At(phase, v, rec, seen)), homes)
  {
  }

  lemma RecordMayGo(s: State, homes: Homes)
    requires Inv(s, homes) && s.pc.At? && Prompt(s, s.pc.v)
    ensures Inv(RecordGoes(s), homes)
  {
  }

  lemma StoredKeeps(s: State, homes: Homes, storage: set<string>)
    requires Inv(s, homes)
    ensures Inv(s.(storage := storage), homes)
  {
    var t := s.(storage := storage);
    forall v | v in t.vms && !t.vms[v].listed ensures InFlight(t, v) {
      assert InFlight(s, v);
    }
  }

  /** Guests that differ in nothing but whether they run. */
  ghost predicate OnlySwitched(a: map<nat, Vm>, b: map<nat, Vm>) {
    && a.Keys == b.Keys
    && forall v :: v in a ==> b[v] == a[v].(running := b[v].running)
  }

  lemma SwitchedKeeps(s: State, homes: Homes, vms: map<nat, Vm>)
    requires Inv(s, homes) && OnlySwitched(s.vms, vms)
    ensures Inv(s.(vms := vms), homes)
  {
    var t := s.(vms := vms);
    forall v | v in t.vms && !t.vms[v].listed ensures InFlight(t, v) {
      assert InFlight(s, v);
    }
  }

  /** A guest of this record's number, listed, given the record's claim. */
  lemma ClaimedKeeps(s: State, homes: Homes)
    requires Inv(s, homes) && (In(s, Claiming) || In(s, Retaking))
    ensures Inv(s.(vms := Edited(s.vms, s.pc.v, (vm: Vm) => vm.(tags := Claim(s.pc.rec.id)))), homes)
  {
    var t := s.(vms := Edited(s.vms, s.pc.v, (vm: Vm) => vm.(tags := Claim(s.pc.rec.id))));
    forall v | v in t.vms && !t.vms[v].listed ensures InFlight(t, v) {
      assert InFlight(s, v);
    }
  }

  lemma LookForItKeeps(s: State, homes: Homes, id: string)
    requires Inv(s, homes) && Can(s, LookForIt(id), true)
    ensures Inv(Do(s, LookForIt(id), true), homes)
  {
  }

  lemma AskOwedKeeps(s: State, homes: Homes, read: bool)
    requires Inv(s, homes) && Can(s, AskOwed(read), true)
    ensures Inv(Do(s, AskOwed(read), true), homes)
  {
  }

  lemma AskStampedKeeps(s: State, homes: Homes)
    requires Inv(s, homes) && Can(s, AskStamped, true)
    ensures Inv(Do(s, AskStamped, true), homes)
  {
  }

  lemma SayLostKeeps(s: State, homes: Homes)
    requires Inv(s, homes) && Can(s, SayLost, true)
    ensures Inv(Do(s, SayLost, true), homes)
  {
  }

  lemma NextIdKeeps(s: State, homes: Homes, v: nat)
    requires Inv(s, homes) && Can(s, NextId(v), true)
    ensures Inv(Do(s, NextId(v), true), homes)
  {
  }

  lemma WriteRecordKeeps(s: State, homes: Homes, write: Write)
    requires Inv(s, homes) && Can(s, WriteRecord(write), true)
    ensures Inv(Do(s, WriteRecord(write), true), homes[s.pc.id := s.pc.v])
  {
  }

  lemma AskCloneKeeps(s: State, homes: Homes, vm: Vm, answered: bool)
    requires Inv(s, homes) && Can(s, AskClone(vm, answered), true)
    ensures Inv(Do(s, AskClone(vm, answered), true), homes)
  {
  }

  lemma CloneRefusedKeeps(s: State, homes: Homes)
    requires Inv(s, homes) && Can(s, CloneRefused, true)
    ensures Inv(Do(s, CloneRefused, true), homes)
  {
  }

  lemma WriteTaskKeeps(s: State, homes: Homes, write: Write)
    requires Inv(s, homes) && Can(s, WriteTask(write), true)
    ensures Inv(Do(s, WriteTask(write), true), homes)
  {
  }

  lemma SeeTaskKeeps(s: State, homes: Homes)
    requires Inv(s, homes) && Can(s, SeeTask, true)
    ensures Inv(Do(s, SeeTask, true), homes)
  {
    var t := Do(s, SeeTask, true);
    if t.pc.At? {
      MayGoOn(s, homes, t.pc.phase, s.pc.v, s.pc.rec, s.pc.seen);
    } else {
      MayReturn(s, homes);
    }
  }

  lemma NoteVolumesKeeps(s: State, homes: Homes, read: bool, write: Write)
    requires Inv(s, homes) && Can(s, NoteVolumes(read, write), true)
    ensures Inv(Do(s, NoteVolumes(read, write), true), homes)
  {
  }

  lemma PutClaimKeeps(s: State, homes: Homes, applied: bool, done: bool)
    requires Inv(s, homes) && Can(s, PutClaim(applied, done), true)
    ensures Inv(Do(s, PutClaim(applied, done), true), homes)
  {
    var t := if applied then s.(vms := Edited(s.vms, s.pc.v, (vm: Vm) => vm.(tags := Claim(s.pc.rec.id)))) else s;
    ClaimedKeeps(s, homes);
    MayGoOn(t, homes, if done then Configuring else GivingUp, s.pc.v, s.pc.rec, s.pc.seen);
  }

  lemma ConfigureKeeps(s: State, homes: Homes, applied: bool, done: bool)
    requires Inv(s, homes) && Can(s, Configure(applied, done), true)
    ensures Inv(Do(s, Configure(applied, done), true), homes)
  {
  }

  lemma CompleteKeeps(s: State, homes: Homes)
    requires Inv(s, homes) && Can(s, Complete, true)
    ensures Inv(Do(s, Complete, true), homes)
  {
  }

  lemma StartKeeps(s: State, homes: Homes, applied: bool, done: bool)
    requires Inv(s, homes) && Can(s, Start(applied, done), true)
    ensures Inv(Do(s, Start(applied, done), true), homes)
  {
    var t := if applied then s.(vms := Edited(s.vms, s.pc.v, (vm: Vm) => vm.(running := true))) else s;
    SwitchedKeeps(s, homes, t.vms);
    if done {
      MayReturn(t, homes);
    } else {
      MayGoOn(t, homes, GivingUp, s.pc.v, s.pc.rec, s.pc.seen);
    }
  }

  lemma WriteAbandonedKeeps(s: State, homes: Homes, write: Write)
    requires Inv(s, homes) && Can(s, WriteAbandoned(write), true)
    ensures Inv(Do(s, WriteAbandoned(write), true), homes)
  {
  }

  lemma ReadStampKeeps(s: State, homes: Homes, read: bool)
    requires Inv(s, homes) && Can(s, ReadStamp(read), true)
    ensures Inv(Do(s, ReadStamp(read), true), homes)
  {
    var t := Do(s, ReadStamp(read), true);
    if t == RecordGoes(s) {
      RecordMayGo(s, homes);
    } else if t.pc.At? {
      MayGoOn(s, homes, Proven, s.pc.v, s.pc.rec, true);
    } else {
      MayReturn(s, homes);
    }
  }

  lemma StopKeeps(s: State, homes: Homes, applied: bool)
    requires Inv(s, homes) && Can(s, Stop(applied), true)
    ensures Inv(Do(s, Stop(applied), true), homes)
  {
    var t := if applied then s.(vms := Edited(s.vms, s.pc.v, (vm: Vm) => vm.(running := false))) else s;
    SwitchedKeeps(s, homes, t.vms);
    MayGoOn(t, homes, Halted, s.pc.v, s.pc.rec, s.pc.seen);
  }

  lemma DestroyKeeps(s: State, homes: Homes, done: bool, seen: bool, left: set<string>)
    requires Inv(s, homes) && Can(s, Destroy(done, seen, left), true)
    ensures Inv(Do(s, Destroy(done, seen, left), true), homes)
  {
  }

  lemma AskVolumesKeeps(s: State, homes: Homes, answered: bool, gone: set<string>)
    requires Inv(s, homes) && Can(s, AskVolumes(answered, gone), true)
    ensures Inv(Do(s, AskVolumes(answered, gone), true), homes)
  {
    if answered {
      var t := s.(storage := s.storage - (gone * s.pc.rec.volids));
      StoredKeeps(s, homes, t.storage);
      if s.pc.rec.volids * t.storage == {} {
        RecordMayGo(t, homes);
      } else {
        MayReturn(t, homes);
      }
    } else {
      MayReturn(s, homes);
    }
  }

  lemma SettleKeeps(s: State, homes: Homes, v: nat)
    requires Inv(s, homes) && Can(s, Settle(v), true)
    ensures Inv(Do(s, Settle(v), true), homes)
  {
    var rec := s.journal[v];
    var t := Do(s, Settle(v), true);
    if t.pc.At? {
      MayGoOn(s, homes, t.pc.phase, v, rec, t.pc.seen);
    }
  }

  lemma SeeOwedKeeps(s: State, homes: Homes, answered: bool)
    requires Inv(s, homes) && Can(s, SeeOwed(answered), true)
    ensures Inv(Do(s, SeeOwed(answered), true), homes)
  {
    var t := Do(s, SeeOwed(answered), true);
    if t.pc.At? {
      MayGoOn(s, homes, t.pc.phase, s.pc.v, s.pc.rec, s.pc.seen);
    } else {
      MayReturn(s, homes);
    }
  }

  lemma JudgeKeeps(s: State, homes: Homes, answered: bool)
    requires Inv(s, homes) && Can(s, Judge(answered), true)
    ensures Inv(Do(s, Judge(answered), true), homes)
  {
    var t := Do(s, Judge(answered), true);
    if t == RecordGoes(s) {
      RecordMayGo(s, homes);
    } else if t.pc.At? {
      MayGoOn(s, homes, Suspecting, s.pc.v, s.pc.rec, t.pc.seen);
    } else {
      MayReturn(s, homes);
    }
  }

  lemma ReadSuspectKeeps(s: State, homes: Homes, read: bool)
    requires Inv(s, homes) && Can(s, ReadSuspect(read), true)
    ensures Inv(Do(s, ReadSuspect(read), true), homes)
  {
    var t := Do(s, ReadSuspect(read), true);
    if t == RecordGoes(s) {
      RecordMayGo(s, homes);
    } else if t.pc.At? {
      MayGoOn(s, homes, Retaking, s.pc.v, s.pc.rec, s.pc.seen);
    } else {
      MayReturn(s, homes);
    }
  }

  lemma RetakeKeeps(s: State, homes: Homes, applied: bool, done: bool)
    requires Inv(s, homes) && Can(s, Retake(applied, done), true)
    ensures Inv(Do(s, Retake(applied, done), true), homes)
  {
    var t := if applied then s.(vms := Edited(s.vms, s.pc.v, (vm: Vm) => vm.(tags := Claim(s.pc.rec.id)))) else s;
    ClaimedKeeps(s, homes);
    if done {
      MayGoOn(t, homes, GivingUp, s.pc.v, s.pc.rec, s.pc.seen);
    } else {
      MayReturn(t, homes);
    }
  }

  lemma SayGoneKeeps(s: State, homes: Homes, id: string, read: bool)
    requires Inv(s, homes) && Can(s, SayGone(id, read), true)
    ensures Inv(Do(s, SayGone(id, read), true), homes)
  {
  }

  lemma CrashKeeps(s: State, homes: Homes)
    requires Inv(s, homes) && Can(s, Crash, true)
    ensures Inv(Do(s, Crash, true), homes)
  {
  }

  lemma OthersDeleteKeeps(s: State, homes: Homes, v: nat)
    requires Inv(s, homes) && Can(s, OthersDelete(v), true)
    ensures Inv(Do(s, OthersDelete(v), true), homes)
  {
  }

  lemma OthersCreateKeeps(s: State, homes: Homes, v: nat, vm: Vm)
    requires Inv(s, homes) && Can(s, OthersCreate(v, vm), true)
    ensures Inv(Do(s, OthersCreate(v, vm), true), homes)
  {
  }

  lemma OthersSwitchKeeps(s: State, homes: Homes, v: nat, on: bool)
    requires Inv(s, homes) && Can(s, OthersSwitch(v, on), true)
    ensures Inv(Do(s, OthersSwitch(v, on), true), homes)
  {
    SwitchedKeeps(s, homes, s.vms[v := s.vms[v].(running := on)]);
  }

  lemma OthersStoreKeeps(s: State, homes: Homes, storage: set<string>)
    requires Inv(s, homes) && Can(s, OthersStore(storage), true)
    ensures Inv(Do(s, OthersStore(storage), true), homes)
  {
    StoredKeeps(s, homes, storage);
  }

  lemma ShowListedKeeps(s: State, homes: Homes, v: nat)
    requires Inv(s, homes) && Can(s, ShowListed(v), true)
    ensures Inv(Do(s, ShowListed(v), true), homes)
  {
    ListedKeeps(s, homes, v, s.tasks);
  }

  lemma TaskEndsKeeps(s: State, homes: Homes, v: nat, well: bool)
    requires Inv(s, homes) && Can(s, TaskEnds(v, well), true)
    ensures Inv(Do(s, TaskEnds(v, well), true), homes)
  {
    var t := Do(s, TaskEnds(v, well), true);
    if v in s.vms {
      assert t.vms == s.vms[v := s.vms[v].(listed := true)];
      ListedKeeps(s, homes, v, t.tasks);
    } else {
      UnlistedKeep(s, t, v);
    }
  }

  /** The guest at `v` is listed, and perhaps its clone task ended. */
  lemma ListedKeeps(s: State, homes: Homes, v: nat, tasks: map<nat, Task>)
    requires Inv(s, homes) && v in s.vms && forall w :: w != v ==> Lookup(tasks, w) == Lookup(s.tasks, w)
    ensures Inv(s.(tasks := tasks, vms := s.vms[v := s.vms[v].(listed := true)]), homes)
  {
    var t := s.(tasks := tasks, vms := s.vms[v := s.vms[v].(listed := true)]);
    UnlistedKeep(s, t, v);
    OnlyListedKeeps(s, t, homes);
  }

  /** Guests that differ in nothing but that more of them are listed. */
  ghost predicate OnlyListed(a: map<nat, Vm>, b: map<nat, Vm>) {
    && a.Keys == b.Keys
    && forall v :: v in a ==> b[v] == a[v].(listed := b[v].listed) && (a[v].listed ==> b[v].listed)
  }

  lemma OnlyListedKeeps(s: State, t: State, homes: Homes)
    requires Inv(s, homes) && OnlyListed(s.vms, t.vms) && t.pc == s.pc && t.journal == s.journal
    requires forall w :: w in t.vms && !t.vms[w].listed ==> InFlight(t, w)
    ensures Inv(t, homes)
  {
  }

  lemma UnlistedKeep(s: State, t: State, v: nat)
    requires Findable(s) && t.pc == s.pc && t.journal == s.journal
    requires forall w :: w != v ==> Lookup(t.tasks, w) == Lookup(s.tasks, w) && Lookup(t.vms, w) == Lookup(s.vms, w)
    requires v in t.vms ==> t.vms[v].listed
    ensures forall w :: w in t.vms && !t.vms[w].listed ==> InFlight(t, w)
  {
    forall w | w in t.vms && !t.vms[w].listed ensures InFlight(t, w) {
      assert Lookup(t.vms, w) == Lookup(s.vms, w) && Lookup(t.tasks, w) == Lookup(s.tasks, w);
      assert InFlight(s, w);
    }
  }

  // ---- Every step, and every run ----

  predicate IsCreates(step: Step) {
    || step.LookForIt? || step.AskOwed? || step.AskStamped? || step.SayLost? || step.NextId? || step.WriteRecord?
    || step.AskClone? || step.CloneRefused? || step.WriteTask? || step.SeeTask? || step.NoteVolumes?
    || step.PutClaim? || step.Configure? || step.Complete? || step.Start?
  }

  predicate IsOthers(step: Step) {
    step.OthersDelete? || step.OthersCreate? || step.OthersSwitch? || step.OthersStore? || step.ShowListed? || step.TaskEnds?
  }

  lemma CreatesKeep(s: State, homes: Homes, step: Step) returns (after: Homes)
    requires Inv(s, homes) && Can(s, step, true) && IsCreates(step)
    ensures Inv(Do(s, step, true), after)
  {
    after := if step.WriteRecord? then homes[s.pc.id := s.pc.v] else homes;
    match step
    case LookForIt(id) => LookForItKeeps(s, homes, id);
    case AskOwed(read) => AskOwedKeeps(s, homes, read);
    case AskStamped => AskStampedKeeps(s, homes);
    case SayLost => SayLostKeeps(s, homes);
    case NextId(v) => NextIdKeeps(s, homes, v);
    case WriteRecord(write) => WriteRecordKeeps(s, homes, write);
    case AskClone(vm, answered) => AskCloneKeeps(s, homes, vm, answered);
    case CloneRefused => CloneRefusedKeeps(s, homes);
    case WriteTask(write) => WriteTaskKeeps(s, homes, write);
    case SeeTask => SeeTaskKeeps(s, homes);
    case NoteVolumes(read, write) => NoteVolumesKeeps(s, homes, read, write);
    case PutClaim(applied, done) => PutClaimKeeps(s, homes, applied, done);
    case Configure(applied, done) => ConfigureKeeps(s, homes, applied, done);
    case Complete => CompleteKeeps(s, homes);
    case Start(applied, done) => StartKeeps(s, homes, applied, done);
  }

  lemma TheRestKeeps(s: State, homes: Homes, step: Step)
    requires Inv(s, homes) && Can(s, step, true) && !IsCreates(step)
    ensures Inv(Do(s, step, true), homes)
  {
    match step
    case WriteAbandoned(write) => WriteAbandonedKeeps(s, homes, write);
    case ReadStamp(read) => ReadStampKeeps(s, homes, read);
    case Stop(applied) => StopKeeps(s, homes, applied);
    case Destroy(done, seen, left) => DestroyKeeps(s, homes, done, seen, left);
    case AskVolumes(answered, gone) => AskVolumesKeeps(s, homes, answered, gone);
    case Settle(v) => SettleKeeps(s, homes, v);
    case SeeOwed(answered) => SeeOwedKeeps(s, homes, answered);
    case Judge(answered) => JudgeKeeps(s, homes, answered);
    case ReadSuspect(read) => ReadSuspectKeeps(s, homes, read);
    case Retake(applied, done) => RetakeKeeps(s, homes, applied, done);
    case SayGone(id, read) => SayGoneKeeps(s, homes, id, read);
    case Crash => CrashKeeps(s, homes);
    case OthersDelete(v) => OthersDeleteKeeps(s, homes, v);
    case OthersCreate(v, vm) => OthersCreateKeeps(s, homes, v, vm);
    case OthersSwitch(v, on) => OthersSwitchKeeps(s, homes, v, on);
    case OthersStore(storage) => OthersStoreKeeps(s, homes, storage);
    case ShowListed(v) => ShowListedKeeps(s, homes, v);
    case TaskEnds(v, well) => TaskEndsKeeps(s, homes, v, well);
  }

  lemma StepKeeps(s: State, homes: Homes, step: Step) returns (after: Homes)
    requires Inv(s, homes) && Can(s, step, true)
    ensures Inv(Do(s, step, true), after)
  {
    after := homes;
    if IsCreates(step) {
      after := CreatesKeep(s, homes, step);
    } else {
      TheRestKeeps(s, homes, step);
    }
  }

  lemma {:induction false} RunKeeps(s: State, homes: Homes, steps: seq<Step>) returns (after: Homes)
    requires Inv(s, homes) && IsRun(s, steps, true)
    ensures Inv(End(s, steps, true), after)
    decreases |steps|
  {
    after := homes;
    if steps != [] {
      after := StepKeeps(s, homes, steps[0]);
      after := RunKeeps(Do(s, steps[0], true), after, steps[1..]);
    }
  }

  /** What a run from a fresh host reaches. */
  ghost predicate Reachable(t: State) {
    exists s, steps :: Fresh(s) && IsRun(s, steps, true) && End(s, steps, true) == t
  }

  lemma Reached(t: State) returns (homes: Homes)
    requires Reachable(t)
    ensures Inv(t, homes)
  {
    var s, steps :| Fresh(s) && IsRun(s, steps, true) && End(s, steps, true) == t;
    homes := RunKeeps(s, map[], steps);
  }

  /** **At most one machine per id**, whatever died or was lost on the way. */
  lemma AtMostOneClone(t: State)
    requires Reachable(t)
    ensures AtMostOne(t)
  {
    var homes := Reached(t);
    forall v, w | v in t.vms && w in t.vms && t.vms[v].stamp.Some? && t.vms[v].stamp == t.vms[w].stamp ensures v == w {
      assert Lookup(homes, t.vms[v].stamp.value) == Some(v);
    }
  }

  /** The agent's step takes the guest at `v` away, or turns it off. */
  ghost predicate Takes(s: State, step: Step, v: nat)
    requires Can(s, step, true)
  {
    var t := Do(s, step, true);
    !IsOthers(step) && v in s.vms && (v !in t.vms || (s.vms[v].running && !t.vms[v].running))
  }

  lemma CreatesTakeNothing(s: State, step: Step, v: nat)
    requires Can(s, step, true) && IsCreates(step)
    ensures !Takes(s, step, v)
  {
  }

  lemma StopAndDestroyTake(s: State, step: Step, v: nat)
    requires Can(s, step, true) && Takes(s, step, v)
    ensures (In(s, Proven) || In(s, Halted)) && s.pc.v == v
  {
    if IsCreates(step) {
      CreatesTakeNothing(s, step, v);
    }
  }

  /** **A licensed stop and destroy.** The agent takes only the guest whose stamp
      it read, for this record, in this same call; and that guest still carries
      the stamp exactly when nobody deleted it and reused its number since. */
  lemma OnlyWhatItsStampWasReadOn(s: State, step: Step, v: nat)
    requires Reachable(s) && Can(s, step, true) && Takes(s, step, v)
    ensures (In(s, Proven) || In(s, Halted)) && s.pc.v == v
    ensures s.vms[v].stamp == Some(s.pc.rec.id) <==> s.pc.seen
    ensures !s.pc.seen ==> s.vms[v].stamp == None
  {
    var homes := Reached(s);
    StopAndDestroyTake(s, step, v);
  }

  /** What is at the number is not proven this record's clone: the clone task was
      not seen to end well (or, once the listing was read, the pool is not the
      buyers'), it is tagged, or its stamp is another. */
  ghost predicate Unproven(s: State, v: nat, rec: Pending)
    requires s.pc.At?
  {
    v in s.vms && (!s.pc.seen || s.vms[v].tags != Untagged || s.vms[v].stamp != Some(rec.id))
  }

  /** The record at `v` can be read no more, or another machine's is there. */
  ghost predicate Goes(s: State, step: Step, v: nat)
    requires Can(s, step, true)
  {
    var after := Do(s, step, true).journal;
    v in s.journal && (v !in after || after[v].id != s.journal[v].id)
  }

  /** The step settles what the record at `v` owes. */
  ghost predicate Settles(s: State, step: Step, v: nat)
    requires Can(s, step, true)
  {
    && s.pc.At? && s.pc.v == v
    && var rec := s.pc.rec;
    || (step.Complete? && IsComplete(s, v, rec.id))
    || (step.Judge? && (v !in s.vms || s.vms[v].tags == Claim(rec.id) || Unproven(s, v, rec)))
    || (step.ReadSuspect? && Unproven(s, v, rec))
    || (step.ReadStamp? && v in s.vms && s.vms[v].stamp != Some(rec.id))
    || (step.AskVolumes? && (v in s.vms ==> s.vms[v].stamp == None) && rec.volids * Do(s, step, true).storage == {})
  }

  /** A rewrite of the record at `v` failed, or was cut, after its truncation. */
  ghost predicate Tears(s: State, step: Step, v: nat) {
    && s.pc.At? && s.pc.v == v
    && match step
       case WriteTask(write) => Left(write) == Torn
       case NoteVolumes(read, write) => read && v in s.vms && Left(write) == Torn
       case WriteAbandoned(write) => Left(write) == Torn
       case _ => false
  }

  /** A create was given the record's number, and wrote its own machine's there. */
  ghost predicate Overwrites(s: State, step: Step, v: nat) {
    && s.pc.Numbered? && s.pc.v == v && step.WriteRecord?
    && match Left(step.write)
       case Old => false
       case Torn => true
       case New => v in s.journal && s.journal[v].id != s.pc.id
  }

  lemma ACreatesRecordGoes(s: State, step: Step, v: nat)
    requires Can(s, step, true) && Goes(s, step, v) && IsCreates(step)
    ensures step.Complete? || step.WriteRecord? || step.WriteTask? || step.NoteVolumes?
    ensures (if step.WriteRecord? then s.pc.Numbered? else s.pc.At?) && s.pc.v == v
  {
  }

  lemma RecordsGoIn(s: State, step: Step, v: nat)
    requires Can(s, step, true) && Goes(s, step, v)
    ensures
      || step.Complete? || step.Judge? || step.ReadSuspect? || step.ReadStamp? || step.AskVolumes?
      || step.WriteRecord? || step.WriteTask? || step.NoteVolumes? || step.WriteAbandoned?
    ensures (if step.WriteRecord? then s.pc.Numbered? else s.pc.At?) && s.pc.v == v
  {
    if IsCreates(step) {
      ACreatesRecordGoes(s, step, v);
    }
  }

  lemma LostIn(s: State, step: Step, v: nat)
    requires Can(s, step, true) && v in s.journal && (Tears(s, step, v) || Overwrites(s, step, v))
    ensures Goes(s, step, v)
  {
  }

  lemma GoesIfLostOrSettled(s: State, homes: Homes, step: Step, v: nat)
    requires Inv(s, homes) && Can(s, step, true)
    ensures Goes(s, step, v) && !Settles(s, step, v) <==> v in s.journal && (Tears(s, step, v) || Overwrites(s, step, v))
  {
    if Goes(s, step, v) {
      RecordsGoIn(s, step, v);
      if step.WriteRecord? || step.WriteTask? || step.NoteVolumes? || step.WriteAbandoned? {
        LostOnly(s, homes, step, v);
      } else {
        SettledOnly(s, homes, step, v);
      }
    }
    if v in s.journal && (Tears(s, step, v) || Overwrites(s, step, v)) {
      LostIn(s, step, v);
    }
  }

  lemma LostOnly(s: State, homes: Homes, step: Step, v: nat)
    requires Inv(s, homes) && Can(s, step, true) && Goes(s, step, v) && (s.pc.At? || s.pc.Numbered?) && s.pc.v == v
    requires step.WriteRecord? || step.WriteTask? || step.NoteVolumes? || step.WriteAbandoned?
    ensures Tears(s, step, v) || Overwrites(s, step, v)
  {
  }

  lemma SettledOnly(s: State, homes: Homes, step: Step, v: nat)
    requires Inv(s, homes) && Can(s, step, true) && Goes(s, step, v) && s.pc.At? && s.pc.v == v
    requires step.Complete? || step.Judge? || step.ReadSuspect? || step.ReadStamp? || step.AskVolumes?
    ensures Settles(s, step, v)
  {
  }

  /** **What is owed stays owed, exactly when**: a record ceases to be read before
      its machine is complete (claimed, stamped and configured, unless others took
      it away), its claim is seen, nothing is at its number, none of its volumes
      is left after its machine is gone, or what is there is not proven its own,
      if and only if a rewrite of it tore it, or a create given its number wrote
      over it. */
  lemma ARecordGoesOnlyWhenSettled(s: State, step: Step, v: nat)
    requires Reachable(s) && Can(s, step, true)
    ensures Goes(s, step, v) && !Settles(s, step, v) <==> v in s.journal && (Tears(s, step, v) || Overwrites(s, step, v))
  {
    var homes := Reached(s);
    GoesIfLostOrSettled(s, homes, step, v);
  }

  /** Some step of the run settles what the record at `v` owes, or loses it. */
  ghost predicate SettledOrLost(s: State, steps: seq<Step>, v: nat)
    requires IsRun(s, steps, true)
    decreases |steps|
  {
    && steps != []
    && (|| Settles(s, steps[0], v) || Tears(s, steps[0], v) || Overwrites(s, steps[0], v)
        || SettledOrLost(Do(s, steps[0], true), steps[1..], v))
  }

  lemma {:induction false} StandsThrough(s: State, homes: Homes, steps: seq<Step>, v: nat)
    requires Inv(s, homes) && IsRun(s, steps, true) && v in s.journal && !SettledOrLost(s, steps, v)
    ensures v in End(s, steps, true).journal && End(s, steps, true).journal[v].id == s.journal[v].id
    decreases |steps|
  {
    if steps != [] {
      GoesIfLostOrSettled(s, homes, steps[0], v);
      var after := StepKeeps(s, homes, steps[0]);
      StandsThrough(Do(s, steps[0], true), after, steps[1..], v);
    }
  }

  /** The same of any run: a record stands for its machine until a step of the run
      settles it, tears it or writes over it. */
  lemma ARecordStandsUntilThen(s: State, steps: seq<Step>, v: nat)
    requires Reachable(s) && IsRun(s, steps, true) && v in s.journal && !SettledOrLost(s, steps, v)
    ensures v in End(s, steps, true).journal && End(s, steps, true).journal[v].id == s.journal[v].id
  {
    var homes := Reached(s);
    StandsThrough(s, homes, steps, v);
  }

  /** **While a record stands**, nothing else is cloned for its machine, and it is
      said neither lost nor gone, but by a call that could not read the journal. */
  lemma AStandingRecordBlocks(s: State, step: Step, v: nat)
    requires Reachable(s) && Can(s, step, true) && v in s.journal
    ensures step.AskClone? && s.pc.rec.id == s.journal[v].id ==> s.pc.v == v || !s.pc.seen
    ensures step.SayLost? ==> s.pc.id != s.journal[v].id || !s.pc.read
    ensures step.SayGone? ==> step.id != s.journal[v].id || !step.read
  {
    var homes := Reached(s);
  }

  // ---- A claimed machine is kept ----

  /** It is there with its claim and its stamp, no rollback of it was begun, and
      the agent is not in the middle of one. */
  ghost predicate Kept(s: State, v: nat, id: string) {
    && v in s.vms && s.vms[v].listed && s.vms[v].tags == Claim(id) && s.vms[v].stamp == Some(id)
    && (v in s.journal ==> s.journal[v].stage == Cloning)
    && (s.pc.Numbered? ==> s.pc.v != v)
    && (s.pc.At? && s.pc.v == v ==> s.pc.phase == Judging)
  }

  /** The steps before anything is asked of the hypervisor. */
  predicate IsLookups(step: Step) {
    step.LookForIt? || step.AskOwed? || step.AskStamped? || step.SayLost? || step.NextId? || step.WriteRecord?
  }

  lemma ALookupKeepsIt(s: State, homes: Homes, step: Step, v: nat, id: string)
    requires Inv(s, homes) && Can(s, step, true) && Kept(s, v, id) && IsLookups(step)
    ensures Kept(Do(s, step, true), v, id) && Do(s, step, true).vms[v] == s.vms[v]
  {
  }

  lemma ACloneKeepsIt(s: State, step: Step, v: nat, id: string)
    requires Can(s, step, true) && Kept(s, v, id) && IsCreates(step) && !IsLookups(step)
    ensures Kept(Do(s, step, true), v, id) && Do(s, step, true).vms[v] == s.vms[v]
  {
    assert s.pc.At? && s.pc.v != v;
  }

  lemma ACreateKeepsIt(s: State, homes: Homes, step: Step, v: nat, id: string)
    requires Inv(s, homes) && Can(s, step, true) && Kept(s, v, id) && IsCreates(step)
    ensures Kept(Do(s, step, true), v, id) && Do(s, step, true).vms[v] == s.vms[v]
  {
    if IsLookups(step) {
      ALookupKeepsIt(s, homes, step, v, id);
    } else {
      ACloneKeepsIt(s, step, v, id);
    }
  }

  predicate IsRollbacks(step: Step) {
    step.WriteAbandoned? || step.ReadStamp? || step.Stop? || step.Destroy? || step.AskVolumes?
  }

  lemma ARollbackKeepsIt(s: State, step: Step, v: nat, id: string)
    requires Can(s, step, true) && Kept(s, v, id) && IsRollbacks(step)
    ensures Kept(Do(s, step, true), v, id) && Do(s, step, true).vms[v] == s.vms[v]
  {
  }

  lemma ASettlingKeepsIt(s: State, homes: Homes, step: Step, v: nat, id: string)
    requires Inv(s, homes) && Can(s, step, true) && Kept(s, v, id)
    requires !IsCreates(step) && !IsOthers(step) && !IsRollbacks(step)
    ensures Kept(Do(s, step, true), v, id) && Do(s, step, true).vms[v] == s.vms[v]
  {
  }

  lemma OthersKeepIt(s: State, step: Step, v: nat, id: string)
    requires Can(s, step, true) && Kept(s, v, id) && IsOthers(step) && step != OthersDelete(v)
    ensures Kept(Do(s, step, true), v, id)
  {
  }

  lemma {:induction false} KeptThrough(s: State, homes: Homes, steps: seq<Step>, v: nat, id: string)
    requires Inv(s, homes) && IsRun(s, steps, true) && Kept(s, v, id) && OthersDelete(v) !in steps
    ensures Kept(End(s, steps, true), v, id)
    decreases |steps|
  {
    if steps != [] {
      if IsCreates(steps[0]) {
        ACreateKeepsIt(s, homes, steps[0], v, id);
      } else if IsOthers(steps[0]) {
        OthersKeepIt(s, steps[0], v, id);
      } else if IsRollbacks(steps[0]) {
        ARollbackKeepsIt(s, steps[0], v, id);
      } else {
        ASettlingKeepsIt(s, homes, steps[0], v, id);
      }
      var after := StepKeeps(s, homes, steps[0]);
      KeptThrough(Do(s, steps[0], true), after, steps[1..], v, id);
    }
  }

  /** **A claimed machine is never taken on account of a Cloning record**: from a
      moment its create is over, or died, no run destroys it, tags it or moves
      its stamp, until others delete it or a rollback of its own is owed. */
  lemma AClaimedMachineIsKept(s: State, steps: seq<Step>, v: nat, id: string)
    requires Reachable(s) && IsRun(s, steps, true) && Kept(s, v, id) && OthersDelete(v) !in steps
    ensures Kept(End(s, steps, true), v, id)
  {
    var homes := Reached(s);
    KeptThrough(s, homes, steps, v, id);
  }
}
