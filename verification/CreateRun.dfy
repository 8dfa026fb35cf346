/**
 A create from end to end (`src/instance.rs:587-970, 1467-1542`), as a run of
 `CloneProtocol`: what stands, and what is owed, for whatever it is answered;
 what it asks before it says or builds anything; and what its rollback undoes.
 */
module CreateRun {
  import opened Wrappers
  import opened CloneJournal
  import opened CloneProtocol
  import opened CloneSafety
  import opened CloneGap

  /** A call's effect on the machine, and whether the agent was told it succeeded. */
  datatype Reply = Reply(applied: bool, done: bool)

  /** What a create is answered from its clone on. */
  datatype Answers = Answers(vm: Vm, read: bool, claim: Reply, config: Reply, start: Reply)

  predicate AreAnswers(id: string, a: Answers) {
    && a.vm.tags == Untagged && a.vm.stamp == Some(id) && a.vm.pooled && !a.vm.configured && !a.vm.running
    && (a.claim.done ==> a.claim.applied) && (a.config.done ==> a.config.applied) && (a.start.done ==> a.start.applied)
  }

  /** Claimed, then configured: each call made only where the one before succeeded. */
  predicate Completes(a: Answers) {
    a.claim.done && a.config.done
  }

  /** The machine a create leaves. */
  function MachineLeft(id: string, a: Answers): Vm {
    Vm(if a.claim.applied then Claim(id) else Untagged, Some(id), true,
       a.claim.done && a.config.applied, Completes(a) && a.start.applied, true, a.vm.volumes)
  }

  /** The record of an accepted clone, its disks noted where they could be read. */
  function RecordOf(id: string, a: Answers): Pending {
    Pending(id, true, Cloning, if a.read then a.vm.volumes else {})
  }

  // ---- What is asked first ----

  /** The calls up to the record's writing. */
  function Opening(id: string, v: nat): seq<Step> {
    [LookForIt(id), AskOwed(true), AskStamped, NextId(v), WriteRecord(Done)]
  }

  ghost predicate MayCreate(s: State, id: string, v: nat) {
    s.pc.Idle? && !ClaimListed(s, id) && !Owed(s, id) && !StampListed(s, id) && v !in s.vms
  }

  ghost predicate Leads(s: State, steps: seq<Step>, t: State) {
    IsRun(s, steps, true) && End(s, steps, true) == t
  }

  lemma On(s: State, steps: seq<Step>, at: State, step: Step, now: State)
    requires Leads(s, steps, at) && Can(at, step, true) && Do(at, step, true) == now
    ensures Leads(s, steps + [step], now)
  {
    Then(s, steps, step, true);
  }

  lemma Opens(s: State, id: string, v: nat)
    requires MayCreate(s, id, v)
    ensures var rec := Pending(id, false, Cloning, {});
            Leads(s, Opening(id, v), s.(journal := s.journal[v := rec], pc := At(Recorded, v, rec, true)))
  {
    var rec := Pending(id, false, Cloning, {});
    On(s, [], s, LookForIt(id), s.(pc := NotThere(id)));
    On(s, [LookForIt(id)], s.(pc := NotThere(id)), AskOwed(true), s.(pc := NotOwed(id, true)));
    var asked := [LookForIt(id), AskOwed(true)];
    assert [] + [LookForIt(id)] == [LookForIt(id)] && [LookForIt(id)] + [AskOwed(true)] == asked;
    On(s, asked, s.(pc := NotOwed(id, true)), AskStamped, s.(pc := NotStamped(id, true)));
    On(s, asked + [AskStamped], s.(pc := NotStamped(id, true)), NextId(v), s.(pc := Numbered(id, v, true)));
    On(s, asked + [AskStamped] + [NextId(v)], s.(pc := Numbered(id, v, true)), WriteRecord(Done),
       s.(journal := s.journal[v := rec], pc := At(Recorded, v, rec, true)));
    assert asked + [AskStamped] + [NextId(v)] + [WriteRecord(Done)] == Opening(id, v);
  }

  // ---- The clone ----

  /** Asked for and accepted, its task id written. */
  function UpToItsTask(id: string, v: nat, vm: Vm): seq<Step> {
    Opening(id, v) + [AskClone(vm, true)] + [WriteTask(Done)]
  }

  lemma IsAccepted(s: State, id: string, v: nat, a: Answers)
    requires MayCreate(s, id, v) && AreAnswers(id, a)
    ensures var rec := Pending(id, true, Cloning, {});
            Leads(s, UpToItsTask(id, v, a.vm),
                  State(s.vms[v := a.vm], s.storage, s.tasks[v := StillRuns], s.journal[v := rec], At(Waiting, v, rec, false)))
  {
    var first, rec := Pending(id, false, Cloning, {}), Pending(id, true, Cloning, {});
    var recorded := s.(journal := s.journal[v := first], pc := At(Recorded, v, first, true));
    var accepted := State(s.vms[v := a.vm], s.storage, s.tasks[v := StillRuns], s.journal[v := first], At(Accepted, v, first, true));
    Opens(s, id, v);
    On(s, Opening(id, v), recorded, AskClone(a.vm, true), accepted);
    assert s.journal[v := first][v := rec] == s.journal[v := rec];
    On(s, Opening(id, v) + [AskClone(a.vm, true)], accepted, WriteTask(Done),
       State(s.vms[v := a.vm], s.storage, s.tasks[v := StillRuns], s.journal[v := rec], At(Waiting, v, rec, false)));
  }

  /** The host, the clone at `v` as it is now. */
  function Host(s: State, v: nat, vm: Vm, task: Task, rec: Pending, phase: Phase): State {
    State(s.vms[v := vm], s.storage, s.tasks[v := task], s.journal[v := rec], At(phase, v, rec, false))
  }

  /** **A clone's task and what follows it**: one not seen to end leaves its record
      and returns; one that ended badly is given up, and one that ended well goes
      on to its claim, the disks on record where they were read. */
  lemma AClonesEnd(s: State, id: string, v: nat, a: Answers)
    requires MayCreate(s, id, v) && AreAnswers(id, a)
    ensures var rec, cloning, vm := Pending(id, true, Cloning, {}), UpToItsTask(id, v, a.vm), a.vm.(listed := true);
            && Leads(s, cloning + [SeeTask], Host(s, v, a.vm, StillRuns, rec, Waiting).(pc := Idle))
            && Leads(s, cloning + [TaskEnds(v, false)] + [SeeTask], Host(s, v, vm, EndedBadly, rec, GivingUp))
            && Leads(s, cloning + [TaskEnds(v, true)] + [SeeTask] + [NoteVolumes(a.read, Done)],
                     Host(s, v, vm, EndedWell, RecordOf(id, a), Claiming))
  {
    var rec, cloning, vm := Pending(id, true, Cloning, {}), UpToItsTask(id, v, a.vm), a.vm.(listed := true);
    var waiting := Host(s, v, a.vm, StillRuns, rec, Waiting);
    IsAccepted(s, id, v, a);
    On(s, cloning, waiting, SeeTask, waiting.(pc := Idle));
    ItsTaskEnds(s, id, v, a, false);
    On(s, cloning + [TaskEnds(v, false)], Host(s, v, vm, EndedBadly, rec, Waiting), SeeTask, Host(s, v, vm, EndedBadly, rec, GivingUp));
    ItsTaskEnds(s, id, v, a, true);
    On(s, cloning + [TaskEnds(v, true)], Host(s, v, vm, EndedWell, rec, Waiting), SeeTask, Host(s, v, vm, EndedWell, rec, Cloned));
    ItsDisksAreNoted(s, id, v, a);
    On(s, cloning + [TaskEnds(v, true)] + [SeeTask], Host(s, v, vm, EndedWell, rec, Cloned), NoteVolumes(a.read, Done),
       Host(s, v, vm, EndedWell, RecordOf(id, a), Claiming));
  }

  lemma ItsTaskEnds(s: State, id: string, v: nat, a: Answers, well: bool)
    requires MayCreate(s, id, v) && AreAnswers(id, a)
    ensures var rec := Pending(id, true, Cloning, {});
            Leads(s, UpToItsTask(id, v, a.vm) + [TaskEnds(v, well)],
                  Host(s, v, a.vm.(listed := true), if well then EndedWell else EndedBadly, rec, Waiting))
  {
    var rec, task := Pending(id, true, Cloning, {}), if well then EndedWell else EndedBadly;
    var waiting := Host(s, v, a.vm, StillRuns, rec, Waiting);
    IsAccepted(s, id, v, a);
    assert s.vms[v := a.vm][v := a.vm.(listed := true)] == s.vms[v := a.vm.(listed := true)];
    assert s.tasks[v := StillRuns][v := task] == s.tasks[v := task];
    On(s, UpToItsTask(id, v, a.vm), waiting, TaskEnds(v, well), Host(s, v, a.vm.(listed := true), task, rec, Waiting));
  }

  lemma ItsDisksAreNoted(s: State, id: string, v: nat, a: Answers)
    ensures var cloned := Host(s, v, a.vm.(listed := true), EndedWell, Pending(id, true, Cloning, {}), Cloned);
            && Can(cloned, NoteVolumes(a.read, Done), true)
            && Do(cloned, NoteVolumes(a.read, Done), true) == Host(s, v, a.vm.(listed := true), EndedWell, RecordOf(id, a), Claiming)
  {
    var rec := Pending(id, true, Cloning, {});
    assert s.journal[v := rec][v := RecordOf(id, a)] == s.journal[v := RecordOf(id, a)];
  }

  // ---- The machine ----

  /** The calls of a create whose clone ended well, as far as they are made. */
  function Script(id: string, v: nat, a: Answers): seq<Step> {
    UpToItsTask(id, v, a.vm) + [TaskEnds(v, true)] + [SeeTask] + [NoteVolumes(a.read, Done)] + [PutClaim(a.claim.applied, a.claim.done)]
    + (if !a.claim.done then []
       else [Configure(a.config.applied, a.config.done)]
            + if !a.config.done then [] else [Complete, Start(a.start.applied, a.start.done)])
  }

  /** The host once its create is made as far as `a` lets it. */
  function Created(s: State, id: string, v: nat, a: Answers): State {
    var rec := RecordOf(id, a);
    State(s.vms[v := MachineLeft(id, a)], s.storage, s.tasks[v := EndedWell],
          if Completes(a) then s.journal - {v} else s.journal[v := rec],
          if Completes(a) && a.start.done then Idle else At(GivingUp, v, rec, false))
  }

  lemma IsClaimed(s: State, id: string, v: nat, a: Answers)
    requires AreAnswers(id, a)
    ensures var step := PutClaim(a.claim.applied, a.claim.done);
            var claiming := Host(s, v, a.vm.(listed := true), EndedWell, RecordOf(id, a), Claiming);
            var vm := a.vm.(listed := true, tags := if a.claim.applied then Claim(id) else Untagged);
            && Can(claiming, step, true)
            && Do(claiming, step, true) == Host(s, v, vm, EndedWell, RecordOf(id, a), if a.claim.done then Configuring else GivingUp)
  {
    var was, vm := a.vm.(listed := true), a.vm.(listed := true, tags := if a.claim.applied then Claim(id) else Untagged);
    assert s.vms[v := was][v := vm] == s.vms[v := vm];
  }

  lemma IsConfigured(s: State, id: string, v: nat, a: Answers)
    requires AreAnswers(id, a) && a.claim.done
    ensures var step := Configure(a.config.applied, a.config.done);
            var was := a.vm.(listed := true, tags := Claim(id));
            var configuring := Host(s, v, was, EndedWell, RecordOf(id, a), Configuring);
            && Can(configuring, step, true)
            && Do(configuring, step, true) ==
                 Host(s, v, was.(configured := a.config.applied), EndedWell, RecordOf(id, a), if a.config.done then Completing else GivingUp)
  {
    var was := a.vm.(listed := true, tags := Claim(id));
    assert s.vms[v := was][v := was.(configured := true)] == s.vms[v := was.(configured := true)];
  }

  lemma IsStarted(s: State, id: string, v: nat, a: Answers)
    requires AreAnswers(id, a) && Completes(a)
    ensures var was := a.vm.(listed := true, tags := Claim(id), configured := true);
            var completing := Host(s, v, was, EndedWell, RecordOf(id, a), Completing);
            var starting := State(s.vms[v := was], s.storage, s.tasks[v := EndedWell], s.journal - {v}, At(Starting, v, RecordOf(id, a), false));
            && Can(completing, Complete, true) && Do(completing, Complete, true) == starting
            && Can(starting, Start(a.start.applied, a.start.done), true)
            && Do(starting, Start(a.start.applied, a.start.done), true) == Created(s, id, v, a)
  {
    var was := a.vm.(listed := true, tags := Claim(id), configured := true);
    assert s.journal[v := RecordOf(id, a)] - {v} == s.journal - {v};
    assert s.vms[v := was][v := was.(running := true)] == s.vms[v := was.(running := true)];
    assert MachineLeft(id, a) == was.(running := a.start.applied);
  }

  /** **What a create leaves**, for whatever its calls are answered: the machine
      claimed, configured and started as far as each call took effect, each made
      only where the one before succeeded; its record gone exactly when it is
      complete; and given up exactly when some call was not seen to succeed. */
  lemma WhatACreateLeaves(s: State, id: string, v: nat, a: Answers)
    requires MayCreate(s, id, v) && AreAnswers(id, a)
    ensures Leads(s, Script(id, v, a), Created(s, id, v, a))
  {
    var cloned := UpToItsTask(id, v, a.vm) + [TaskEnds(v, true)] + [SeeTask] + [NoteVolumes(a.read, Done)];
    var rec := RecordOf(id, a);
    var claiming := Host(s, v, a.vm.(listed := true), EndedWell, rec, Claiming);
    var vm := a.vm.(listed := true, tags := if a.claim.applied then Claim(id) else Untagged);
    var put := cloned + [PutClaim(a.claim.applied, a.claim.done)];
    AClonesEnd(s, id, v, a);
    IsClaimed(s, id, v, a);
    On(s, cloned, claiming, PutClaim(a.claim.applied, a.claim.done), Host(s, v, vm, EndedWell, rec, if a.claim.done then Configuring else GivingUp));
    if !a.claim.done {
      assert Script(id, v, a) == put;
      assert MachineLeft(id, a) == vm;
    } else {
      WhatAClaimedCreateLeaves(s, id, v, a, put);
      assert Script(id, v, a) == put + ([Configure(a.config.applied, a.config.done)]
                                        + if !a.config.done then [] else [Complete, Start(a.start.applied, a.start.done)]);
    }
  }

  lemma WhatAClaimedCreateLeaves(s: State, id: string, v: nat, a: Answers, put: seq<Step>)
    requires AreAnswers(id, a) && a.claim.done
    requires Leads(s, put, Host(s, v, a.vm.(listed := true, tags := Claim(id)), EndedWell, RecordOf(id, a), Configuring))
    ensures Leads(s, put + ([Configure(a.config.applied, a.config.done)]
                            + if !a.config.done then [] else [Complete, Start(a.start.applied, a.start.done)]),
                  Created(s, id, v, a))
  {
    var rec, configure := RecordOf(id, a), Configure(a.config.applied, a.config.done);
    var was := a.vm.(listed := true, tags := Claim(id));
    var now := was.(configured := a.config.applied);
    IsConfigured(s, id, v, a);
    On(s, put, Host(s, v, was, EndedWell, rec, Configuring), configure,
       Host(s, v, now, EndedWell, rec, if a.config.done then Completing else GivingUp));
    if !a.config.done {
      assert MachineLeft(id, a) == now;
      assert put + ([configure] + []) == put + [configure];
    } else {
      WhatACompleteCreateLeaves(s, id, v, a, put + [configure]);
      assert put + ([configure] + [Complete, Start(a.start.applied, a.start.done)]) ==
             (put + [configure]) + [Complete, Start(a.start.applied, a.start.done)];
    }
  }

  lemma WhatACompleteCreateLeaves(s: State, id: string, v: nat, a: Answers, steps: seq<Step>)
    requires AreAnswers(id, a) && Completes(a)
    requires Leads(s, steps, Host(s, v, a.vm.(listed := true, tags := Claim(id), configured := true), EndedWell, RecordOf(id, a), Completing))
    ensures Leads(s, steps + [Complete, Start(a.start.applied, a.start.done)], Created(s, id, v, a))
  {
    var rec, start := RecordOf(id, a), Start(a.start.applied, a.start.done);
    var was := a.vm.(listed := true, tags := Claim(id), configured := true);
    var starting := State(s.vms[v := was], s.storage, s.tasks[v := EndedWell], s.journal - {v}, At(Starting, v, rec, false));
    IsStarted(s, id, v, a);
    On(s, steps, Host(s, v, was, EndedWell, rec, Completing), Complete, starting);
    On(s, steps + [Complete], starting, start, Created(s, id, v, a));
    assert steps + [Complete, start] == steps + [Complete] + [start];
  }

  // ---- The rollback ----

  /** Every call of a rollback, answered in full. */
  function Undoing(rec: Pending): seq<Step> {
    [WriteAbandoned(Done)] + [ReadStamp(true)] + [Stop(true)] + [Destroy(true, true, {})] + [AskVolumes(true, rec.volids)]
  }

  /** **A create given up and undone leaves nothing**: whatever was applied of it,
      with its rollback answered in full, no guest at its number, no record of it,
      none of its disks, and everything else as it was. */
  lemma ACreateUndoneLeavesNothing(s: State, id: string, v: nat, a: Answers)
    requires MayCreate(s, id, v) && AreAnswers(id, a) && !(Completes(a) && a.start.done)
    ensures Leads(s, Script(id, v, a) + Undoing(RecordOf(id, a)),
                  State(s.vms, s.storage - a.vm.volumes, s.tasks[v := EndedWell], s.journal - {v}, Idle))
  {
    WhatACreateLeaves(s, id, v, a);
    IsUndone(s, Script(id, v, a), Created(s, id, v, a), v, RecordOf(id, a));
    var done := Created(s, id, v, a);
    assert done.vms - {v} == s.vms;
    assert done.journal - {v} == s.journal - {v};
    assert done.storage - a.vm.volumes - RecordOf(id, a).volids == s.storage - a.vm.volumes;
  }

  /** What the rollback has stopped, at `v`. */
  function Stopped(at: State, v: nat, rec: Pending): State
    requires v in at.vms
  {
    State(at.vms[v := at.vms[v].(running := false)], at.storage, at.tasks, at.journal[v := rec.(stage := Abandoned)], At(Halted, v, rec, true))
  }

  lemma IsStopped(s: State, steps: seq<Step>, at: State, v: nat, rec: Pending)
    requires Leads(s, steps, at) && v in at.vms && at.vms[v].stamp == Some(rec.id) && at.pc == At(GivingUp, v, rec, false)
    ensures Leads(s, steps + [WriteAbandoned(Done)] + [ReadStamp(true)] + [Stop(true)], Stopped(at, v, rec))
  {
    var marked := at.(journal := at.journal[v := rec.(stage := Abandoned)], pc := At(Marked, v, rec, false));
    On(s, steps, at, WriteAbandoned(Done), marked);
    var one := steps + [WriteAbandoned(Done)];
    On(s, one, marked, ReadStamp(true), marked.(pc := At(Proven, v, rec, true)));
    On(s, one + [ReadStamp(true)], marked.(pc := At(Proven, v, rec, true)), Stop(true), Stopped(at, v, rec));
  }

  lemma IsDestroyed(at: State, v: nat, rec: Pending)
    requires v in at.vms
    ensures var halted := Stopped(at, v, rec);
            && Can(halted, Destroy(true, true, {}), true)
            && Do(halted, Destroy(true, true, {}), true) ==
                 halted.(vms := at.vms - {v}, storage := at.storage - at.vms[v].volumes, pc := At(Removed, v, rec, true))
  {
    var halted := Stopped(at, v, rec);
    assert halted.vms - {v} == at.vms - {v} && halted.vms[v].volumes - {} == at.vms[v].volumes;
  }

  lemma IsUndone(s: State, steps: seq<Step>, at: State, v: nat, rec: Pending)
    requires Leads(s, steps, at) && v in at.vms && at.vms[v].stamp == Some(rec.id) && at.pc == At(GivingUp, v, rec, false)
    ensures Leads(s, steps + Undoing(rec),
                  State(at.vms - {v}, at.storage - at.vms[v].volumes - rec.volids, at.tasks, at.journal - {v}, Idle))
  {
    var halted := Stopped(at, v, rec);
    var removed := halted.(vms := at.vms - {v}, storage := at.storage - at.vms[v].volumes, pc := At(Removed, v, rec, true));
    var three := steps + [WriteAbandoned(Done)] + [ReadStamp(true)] + [Stop(true)];
    IsStopped(s, steps, at, v, rec);
    IsDestroyed(at, v, rec);
    On(s, three, halted, Destroy(true, true, {}), removed);
    VolumesGo(removed, at.journal, v, rec);
    On(s, three + [Destroy(true, true, {})], removed, AskVolumes(true, rec.volids),
       State(at.vms - {v}, at.storage - at.vms[v].volumes - rec.volids, at.tasks, at.journal - {v}, Idle));
    assert steps + Undoing(rec) == three + [Destroy(true, true, {})] + [AskVolumes(true, rec.volids)];
  }

  lemma VolumesGo(removed: State, was: map<nat, Pending>, v: nat, rec: Pending)
    requires removed.pc == At(Removed, v, rec, true) && removed.journal == was[v := rec.(stage := Abandoned)]
    ensures Can(removed, AskVolumes(true, rec.volids), true)
    ensures Do(removed, AskVolumes(true, rec.volids), true) ==
            removed.(storage := removed.storage - rec.volids, journal := was - {v}, pc := Idle)
  {
    assert removed.storage - (rec.volids * rec.volids) == removed.storage - rec.volids;
    assert rec.volids * (removed.storage - rec.volids) == {};
    assert was[v := rec.(stage := Abandoned)] - {v} == was - {v};
  }

  // ---- A call that is not answered ----

  /** **What an unanswered call of a create does**: a record not written, and an
      acceptance not seen, end it there; the note of the disks is not waited for,
      unless the agent dies in it. */
  lemma WhatAnUnansweredCreateDoes(s: State, step: Step)
    requires Can(s, step, false) && IsCreates(step)
    ensures var after := Do(s, step, false);
            && ((step.WriteRecord? || step.WriteTask?) && !step.write.Done? ==> after.pc.Idle? && after.vms == s.vms)
            && (step.AskClone? && !step.answered ==> after.pc.Idle? && after.journal == s.journal)
            && (step.CloneRefused? ==> after == s.(pc := Idle))
            && (step.NoteVolumes? ==>
                  if step.read && s.pc.v in s.vms && step.write.Died? then after.pc.Idle?
                  else In(after, Claiming) && after.pc.v == s.pc.v)
  {
  }

  /** **And of a rollback or a recovery**: a question not answered ends the call
      there, with no guest, disk or record touched; a destroy not seen to succeed
      ends it with the record as it is; and a record not rewritten does not stop
      the rollback, unless the agent dies in it. */
  lemma WhatAnUnansweredRollbackDoes(s: State, step: Step)
    requires Can(s, step, false) && !IsCreates(step) && !IsOthers(step)
    ensures var after := Do(s, step, false);
            && ((step.SeeOwed? || step.Judge? || step.AskVolumes?) && !step.answered ==> after == s.(pc := Idle))
            && ((step.ReadStamp? || step.ReadSuspect?) && !step.read ==> after == s.(pc := Idle))
            && (step.Destroy? && !step.done ==> after == s.(pc := Idle))
            && (step.Destroy? && !step.seen ==> after.pc.Idle? && after.journal == s.journal)
            && ((step.Stop? || step.Retake?) && !step.applied ==> after.vms == s.vms)
            && (step.Retake? ==> after.pc == if step.done then s.pc.(phase := GivingUp) else Idle)
            && (step.WriteAbandoned? ==> if step.write.Died? then after.pc.Idle? else after.pc == s.pc.(phase := Marked))
  {
  }

  /** **What care asks**, and nothing more: that a clone is listed where its
      acceptance is not seen, where its record is not rewritten, and where the
      agent dies in between; and that no clone of an id is unlisted where its
      create cannot read the journal. */
  lemma WhatCareAsks(s: State, step: Step)
    ensures Can(s, step, true) <==>
            && Can(s, step, false)
            && (step.AskClone? && !step.answered ==> step.vm.listed)
            && (step.WriteTask? && Left(step.write) != New ==> s.pc.v in s.vms ==> s.vms[s.pc.v].listed)
            && (step.Crash? && In(s, Accepted) ==> s.pc.v in s.vms ==> s.vms[s.pc.v].listed)
            && (step.AskOwed? && !step.read ==> forall v :: v in s.vms && s.vms[v].stamp == Some(s.pc.id) ==> s.vms[v].listed)
    ensures In(s, Recorded) && step.AskClone? && s.pc.v !in s.vms && step.vm == Vm(Untagged, Some(s.pc.rec.id), true, false, false, false, {}) ==>
              Can(s, step, false)
    ensures In(s, Accepted) && step.WriteTask? ==> Can(s, step, false)
    ensures s.pc.NotThere? && step.AskOwed? ==> Can(s, step, false)
  {
  }

  /** Others may delete, switch or list any guest, and make one at any free number
      with no stamp; and a task may end either way. */
  lemma WhatOthersMayDo(s: State, step: Step)
    requires IsOthers(step)
    ensures Can(s, step, true) <==>
            && (step.OthersDelete? || step.OthersSwitch? || step.ShowListed? ==> step.v in s.vms)
            && (step.OthersCreate? ==> step.v !in s.vms && step.vm.stamp == None && step.vm.listed)
            && (step.TaskEnds? ==> Lookup(s.tasks, step.v) == Some(StillRuns))
  {
  }

  /** What they do touches that guest alone. */
  lemma WhatOthersDo(s: State, step: Step)
    requires IsOthers(step) && Can(s, step, true)
    ensures var vms := Do(s, step, true).vms;
            && (step.OthersDelete? ==> vms == s.vms - {step.v})
            && (step.OthersCreate? ==> vms == s.vms[step.v := step.vm])
            && (step.OthersSwitch? ==> vms == s.vms[step.v := s.vms[step.v].(running := step.on)])
            && (step.ShowListed? ==> vms == s.vms[step.v := s.vms[step.v].(listed := true)])
            && (step.OthersStore? ==> vms == s.vms)
  {
  }

  /** **Whatever guest then stands at its number is marked**, though another's: a
      claim, a configuration and a retaken claim are put on by number alone. */
  lemma WhateverIsThereIsMarked(s: State, step: Step)
    requires Can(s, step, false) && s.pc.At? && s.pc.v in s.vms
    requires (step.PutClaim? || step.Configure? || step.Retake?) && step.applied
    ensures var vm := Do(s, step, false).vms[s.pc.v];
            && vm.tags == Claim(s.pc.rec.id) && vm.volumes == s.vms[s.pc.v].volumes && vm.running == s.vms[s.pc.v].running
            && vm.stamp == (if step.Configure? then Some(s.pc.rec.id) else s.vms[s.pc.v].stamp)
            && vm.configured == (step.Configure? || s.vms[s.pc.v].configured)
    ensures Do(s, step, false).vms - {s.pc.v} == s.vms - {s.pc.v}
  {
    assert Do(s, step, false).vms - {s.pc.v} == s.vms - {s.pc.v};
  }

  /** An answer to Core changes nothing on the host. */
  lemma AnAnswerChangesNothing(s: State, step: Step)
    requires Can(s, step, false) && (step.SayLost? || step.SayGone?)
    ensures Do(s, step, false) == s.(pc := Idle)
  {
  }

  // ---- Before it says or builds anything ----

  lemma {:induction false} WasARun(s: State, steps: seq<Step>, n: nat, careful: bool)
    requires IsRun(s, steps, careful) && n <= |steps|
    ensures IsRun(s, steps[..n], careful)
    ensures n < |steps| ==>
              && Can(End(s, steps[..n], careful), steps[n], careful)
              && IsRun(s, steps[..n + 1], careful)
              && End(s, steps[..n + 1], careful) == Do(End(s, steps[..n], careful), steps[n], careful)
    decreases n
  {
    if n == 0 {
      assert steps[..0] == [];
      if |steps| > 0 {
        Then(s, [], steps[0], careful);
        assert steps[..1] == [] + [steps[0]];
      }
    } else {
      WasARun(s, steps, n - 1, careful);
      if n < |steps| {
        CanGoOn(s, steps, n, careful);
        Then(s, steps[..n], steps[n], careful);
        assert steps[..n + 1] == steps[..n] + [steps[n]];
      }
    }
  }

  lemma {:induction false} CanGoOn(s: State, steps: seq<Step>, n: nat, careful: bool)
    requires IsRun(s, steps, careful) && n < |steps| && IsRun(s, steps[..n], careful)
    ensures Can(End(s, steps[..n], careful), steps[n], careful)
    decreases n
  {
    if n == 0 {
      assert steps[..0] == [];
    } else {
      assert steps[..n][0] == steps[0] && steps[..n][1..] == steps[1..][..n - 1] && steps[n] == steps[1..][n - 1];
      CanGoOn(Do(s, steps[0], careful), steps[1..], n - 1, careful);
    }
  }

  /** Looked for, and no listed guest carried its claim. */
  ghost predicate Looked(s: State, steps: seq<Step>, i: nat, id: string) {
    i < |steps| && IsRun(s, steps[..i], true) && steps[i] == LookForIt(id) && !ClaimListed(End(s, steps[..i], true), id)
  }

  /** The journal asked, and nothing owed for it, where it could be read. */
  ghost predicate AskedJournal(s: State, steps: seq<Step>, i: nat, id: string, read: bool) {
    i < |steps| && IsRun(s, steps[..i], true) && steps[i] == AskOwed(read) && (read ==> !Owed(End(s, steps[..i], true), id))
  }

  /** The stamps asked, and no listed guest of the pool carried its own. */
  ghost predicate AskedStamps(s: State, steps: seq<Step>, i: nat, id: string) {
    i < |steps| && IsRun(s, steps[..i], true) && steps[i] == AskStamped && !StampListed(End(s, steps[..i], true), id)
  }

  ghost predicate NotFound(s: State, steps: seq<Step>, n: nat, id: string) {
    exists i: nat :: i < n && Looked(s, steps, i, id)
  }

  ghost predicate NotFoundOrOwed(s: State, steps: seq<Step>, n: nat, id: string, read: bool) {
    exists i: nat :: i < n && AskedJournal(s, steps, i, id, read) && NotFound(s, steps, i, id)
  }

  ghost predicate NowhereToBeFound(s: State, steps: seq<Step>, n: nat, id: string, read: bool) {
    exists i: nat :: i < n && AskedStamps(s, steps, i, id) && NotFoundOrOwed(s, steps, i, id, read)
  }

  /** What a create has asked so far. */
  ghost predicate HasAsked(s: State, steps: seq<Step>, n: nat, pc: Pc) {
    && (pc.NotThere? ==> NotFound(s, steps, n, pc.id))
    && (pc.NotOwed? ==> NotFoundOrOwed(s, steps, n, pc.id, pc.read))
    && (pc.NotStamped? || pc.Numbered? ==> NowhereToBeFound(s, steps, n, pc.id, pc.read))
  }

  predicate IsAsking(pc: Pc) {
    pc.NotThere? || pc.NotOwed? || pc.NotStamped? || pc.Numbered?
  }

  lemma OthersDoNotMoveIt(at: State, step: Step)
    requires Can(at, step, true) && IsAsking(Do(at, step, true).pc) && IsOthers(step)
    ensures Do(at, step, true).pc == at.pc
  {
  }

  lemma ACallOfItsOwnDoesNot(at: State, step: Step)
    requires Can(at, step, true) && !IsOthers(step) && !step.SayGone?
    requires !step.LookForIt? && !step.AskOwed? && !step.AskStamped? && !step.NextId?
    ensures Do(at, step, true).pc.At? || Do(at, step, true).pc.Idle?
  {
  }

  /** Only the three questions, and the number taken after them, move it on. */
  lemma OnlyTheQuestionsMoveIt(at: State, step: Step)
    requires Can(at, step, true) && IsAsking(Do(at, step, true).pc)
    ensures step.LookForIt? || step.AskOwed? || step.AskStamped? || step.NextId? || Do(at, step, true).pc == at.pc
  {
    if IsOthers(step) {
      OthersDoNotMoveIt(at, step);
    } else if !step.SayGone? && !step.LookForIt? && !step.AskOwed? && !step.AskStamped? && !step.NextId? {
      ACallOfItsOwnDoesNot(at, step);
    }
  }

  lemma HasAskedOneMore(s: State, steps: seq<Step>, n: nat, at: State)
    requires n < |steps| && IsRun(s, steps[..n], true) && End(s, steps[..n], true) == at && Can(at, steps[n], true)
    requires HasAsked(s, steps, n, at.pc)
    ensures HasAsked(s, steps, n + 1, Do(at, steps[n], true).pc)
  {
    var step, pc := steps[n], Do(at, steps[n], true).pc;
    StillAsked(s, steps, n, at.pc);
    if IsAsking(pc) {
      OnlyTheQuestionsMoveIt(at, step);
      if step.LookForIt? {
        assert Looked(s, steps, n, step.id);
      } else if step.AskOwed? {
        assert AskedJournal(s, steps, n, pc.id, pc.read) && NotFound(s, steps, n, pc.id);
      } else if step.AskStamped? {
        assert AskedStamps(s, steps, n, pc.id) && NotFoundOrOwed(s, steps, n, pc.id, pc.read);
      }
    }
  }

  lemma StillAsked(s: State, steps: seq<Step>, n: nat, pc: Pc)
    requires HasAsked(s, steps, n, pc)
    ensures HasAsked(s, steps, n + 1, pc)
  {
  }

  lemma {:induction false} AlwaysHasAsked(s: State, steps: seq<Step>, n: nat)
    requires s.pc.Idle? && IsRun(s, steps, true) && n <= |steps|
    ensures IsRun(s, steps[..n], true) && HasAsked(s, steps, n, End(s, steps[..n], true).pc)
    decreases n
  {
    WasARun(s, steps, n, true);
    if n == 0 {
      assert steps[..0] == [];
    } else {
      AlwaysHasAsked(s, steps, n - 1);
      WasARun(s, steps, n - 1, true);
      HasAskedOneMore(s, steps, n - 1, End(s, steps[..n - 1], true));
    }
  }

  /** **Nothing is said lost, and nothing built, before all three were asked**, in
      any run, whatever others do in between: the listing for its claim, then the
      journal, then the listing for its stamp, each finding nothing; but for a
      journal that could not be read. */
  lemma WhatIsAskedFirst(s: State, steps: seq<Step>, n: nat)
    requires s.pc.Idle? && IsRun(s, steps, true) && n < |steps| && (steps[n].SayLost? || steps[n].NextId?)
    ensures IsRun(s, steps[..n], true)
    ensures var pc := End(s, steps[..n], true).pc;
            pc.NotStamped? && NowhereToBeFound(s, steps, n, pc.id, pc.read)
  {
    AlwaysHasAsked(s, steps, n);
    WasARun(s, steps, n, true);
  }
}
