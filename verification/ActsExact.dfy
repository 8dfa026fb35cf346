/**
 What a pass asks of the hypervisor and tells of each item, exactly
 (`src/agent.rs:3994-4340`, `src/instance.rs:298-340, 719-1012`,
 `src/worker.rs:410-860`, `src/teardown.rs:631-652`): every re-read, every act and
 every end, from what is wanted of the item, what is found of it, and what Core
 answers.
 */
module ActsExact {
  import opened Wrappers
  import opened Wire
  import opened RestoreHead
  import opened FreshView
  import opened Reconcile

  /** `e` goes on from `t`: these re-reads, and acts of these kinds, all of `id`. */
  ghost predicate Did(t: Trace, e: Ended, id: string, asks: seq<Answer>, kinds: seq<Kind>) {
    && e.trace.asks == t.asks + asks
    && |e.trace.acts| == |t.acts| + |kinds| && e.trace.acts[..|t.acts|] == t.acts
    && forall i :: 0 <= i < |kinds| ==> e.trace.acts[|t.acts| + i].kind == kinds[i] && e.trace.acts[|t.acts| + i].id == id
  }

  predicate Wanted(spec: InstanceSpec) {
    spec.intent == Running || spec.intent == Stopped
  }

  // ---- What a re-read allows ----

  /** **What a re-read allows of an instance**: a destroy, where the view's first word
      of it is Absent; a start, where it is Running; a build, where it is either of
      the two that want it and the view has not seen it built. */
  lemma WhatAReReadAllows(m: Memory, a: Answer, id: string, i: nat)
    requires Usable(m, a) && IsFirst(FreshView.Offered(m, a).value.instances, id, i)
    ensures var spec, says := FreshView.Offered(m, a).value.instances[i], Says(m, a, id);
            && (SaysAbsent(says) <==> spec.intent == Absent)
            && (SaysRunning(says) <==> spec.intent == Running)
            && (SaysWanted(says) <==> (spec.intent == Running || spec.intent == Stopped) && !spec.built)
  {
    AnInstancesWordIsItsViews(m, a, id, i);
  }

  /** **And of an answer naming a restore, or a view below the head**: nothing, of
      anything. */
  lemma ARestoreAllowsNothing(m: Memory, a: Answer, id: string)
    requires a.Answer? && m.head.armed
    requires a.named.Some? || (m.head.mode.None? && !a.same && 0 < a.view.version < m.head.revision)
    ensures var says := Says(m, a, id); !SaysAbsent(says) && !SaysRunning(says) && !SaysWanted(says)
  {
    NothingIsSaidInARestore(m, a, id);
  }

  // ---- A delete ----

  predicate Destroys(m: Memory, id: string, it: Item) {
    it.doomed.Guest? && SaysAbsent(Says(m, it.first, id))
  }

  /** **A delete, exactly**: one re-read when a guest is found, its destroy exactly
      when that says Absent, and gone told exactly when none was or it went. */
  lemma WhatADeleteDoes(t: Trace, id: string, it: Item)
    ensures var e := Deleted(t, id, it);
            && Did(t, e, id, if it.doomed.Guest? then [it.first] else [], if Destroys(t.memory, id, it) then [Destroy] else [])
            && (e.end == Told(Down) <==> it.doomed == NothingClaimed || (Destroys(t.memory, id, it) && it.doomed.sound))
            && (e.end != Told(Down) ==> e.end == Failed)
  {
  }

  // ---- A standing machine ----

  /** What the one re-read of a standing machine meant to run allows. */
  predicate Starts(m: Memory, spec: InstanceSpec, s: Sight, a: Answer)
    requires s.Standing?
  {
    s.steady && spec.intent == Running && !s.running && s.ready && SaysRunning(Says(m, a, spec.id))
  }

  /** **A standing machine, exactly**: its start is asked for if and only if it is
      steady and ready, stands stopped, is to run, and Core says so again; it is
      told Up if and only if it is to run and ran or was started, and every step
      went through. */
  lemma WhatStandsDoes(t: Trace, spec: InstanceSpec, s: Sight, a: Answer, worker: bool, failed: End)
    requires s.Standing? && Wanted(spec) && !failed.Told?
    ensures var e := Converged(t, spec, s, a, worker, failed);
            var asks := s.steady && spec.intent == Running && !s.running;
            && Did(t, e, spec.id, if asks then [a] else [], if Starts(t.memory, spec, s, a) then [Start] else [])
            && (e.end == Told(Up) <==>
                  s.steady && s.sound && spec.intent == Running && (s.running || Starts(t.memory, spec, s, a)))
            && (e.end == Told(Down) <==>
                  && s.steady && s.sound
                  && (spec.intent == Stopped
                      || (!s.running && !Starts(t.memory, spec, s, a)
                          && (!worker || !SaysRunning(Says(t.memory, a, spec.id))))))
            && (e.end != Told(Up) && e.end != Told(Down) ==> e.end == failed)
  {
  }

  // ---- A create ----

  /** The machine made, and Core's second word is to run it. */
  predicate MayStart(m: Memory, spec: InstanceSpec, s: Sight, a: Answer)
    requires s.Nowhere?
  {
    s.places && s.made && spec.intent == Running && SaysRunning(Says(m, a, spec.id))
  }

  /** A step of the create failed. */
  predicate Fails(m: Memory, spec: InstanceSpec, s: Sight, a: Answer)
    requires s.Nowhere?
  {
    s.places && (!s.made || (MayStart(m, spec, s, a) && !(s.ready && s.starts)))
  }

  /** **A machine's create, exactly**: built where it can be placed; started if and
      only if it was made, is to run, Core says so again and it is ready; taken
      back if and only if a step failed and the rollback got that far. */
  lemma WhatACreateDoes(t: Trace, spec: InstanceSpec, s: Sight, a: Answer)
    requires s.Nowhere? && Wanted(spec)
    ensures var e := Created(t, spec, s, a);
            && Did(t, e, spec.id, if s.places && s.made && spec.intent == Running then [a] else [],
                   (if s.places then [Build] else [])
                   + (if MayStart(t.memory, spec, s, a) && s.ready then [Start] else [])
                   + (if Fails(t.memory, spec, s, a) && s.takes then [TakeBack] else []))
            && (e.end == Told(Up) <==> MayStart(t.memory, spec, s, a) && s.ready && s.starts)
            && (e.end == Told(Down) <==> s.places && s.made && !MayStart(t.memory, spec, s, a))
            && (e.end == Failed <==> !s.places || Fails(t.memory, spec, s, a))
  {
  }

  predicate MakesWorker(m: Memory, spec: InstanceSpec, s: Sight, a: Answer, built: Option<bool>)
    requires s.Nowhere?
  {
    built == Some(false) && SaysWanted(Says(m, a, spec.id)) && s.places
  }

  /** **A worker's create, exactly**: nothing where it was sent as built, or is not
      known; else one re-read, and the same acts on it. */
  lemma WhatAWorkersCreateDoes(t: Trace, spec: InstanceSpec, s: Sight, a: Answer, built: Option<bool>)
    requires s.Nowhere?
    ensures var e := WorkerCreated(t, spec, s, a, built);
            var makes := MakesWorker(t.memory, spec, s, a, built);
            && Did(t, e, spec.id, if built == Some(false) then [a] else [],
                   (if makes then [Build] else [])
                   + (if makes && s.made && s.ready then [StartBuilt] else [])
                   + (if makes && !(s.made && s.ready && s.starts) && s.takes then [TakeBack] else []))
            && (e.end == Told(Up) <==> makes && s.made && s.ready && s.starts)
            && (e.end == Told(Errored) <==> built == Some(true))
            && (e.end == NotLooked <==> built == None || (built == Some(false) && !SaysWanted(Says(t.memory, a, spec.id))))
            && (e.end == Failed <==>
                  built == Some(false) && SaysWanted(Says(t.memory, a, spec.id)) && !(s.places && s.made && s.ready && s.starts))
  {
  }

  // ---- One item ----

  lemma DidAfterAsking(t: Trace, a: Answer, e: Ended, id: string, asks: seq<Answer>, kinds: seq<Kind>)
    requires Did(Asking(t, a), e, id, asks, kinds)
    ensures Did(t, e, id, [a] + asks, kinds)
  {
    assert t.asks + [a] + asks == t.asks + ([a] + asks);
  }

  /** An instance is looked at: wanted, not torn down here, seen built or still
      wanted by Core and not built, and its image offered. */
  predicate IsLookedAt(m: Memory, spec: InstanceSpec, it: Item) {
    Wanted(spec) && !it.torn && (spec.built || SaysWanted(Says(m, it.first, spec.id))) && it.offered
  }

  /** What the agent holds once an instance is looked at. */
  function Then(m: Memory, spec: InstanceSpec, it: Item): Memory {
    if spec.built then m else After(m, it.first)
  }

  predicate StandsAndStarts(m: Memory, spec: InstanceSpec, it: Item) {
    IsLookedAt(m, spec, it) && it.sight.Standing? && Starts(Then(m, spec, it), spec, it.sight, it.second)
  }

  /** Nowhere, not seen built, and so created. */
  predicate IsCreated(m: Memory, spec: InstanceSpec, it: Item) {
    IsLookedAt(m, spec, it) && it.sight.Nowhere? && !spec.built
  }

  predicate IsMadeAndStarts(m: Memory, spec: InstanceSpec, it: Item) {
    IsCreated(m, spec, it) && MayStart(Then(m, spec, it), spec, it.sight, it.second) && it.sight.ready
  }

  predicate IsTakenBack(m: Memory, spec: InstanceSpec, it: Item) {
    IsCreated(m, spec, it) && Fails(Then(m, spec, it), spec, it.sight, it.second) && it.sight.takes
  }

  /** The second re-read: of a machine to be started, here already or just made. */
  predicate AsksAgain(m: Memory, spec: InstanceSpec, it: Item) {
    && IsLookedAt(m, spec, it) && spec.intent == Running
    && ((it.sight.Standing? && it.sight.steady && !it.sight.running)
        || (it.sight.Nowhere? && !spec.built && it.sight.places && it.sight.made))
  }

  function InstanceAsks(m: Memory, spec: InstanceSpec, it: Item): seq<Answer> {
    (if (spec.intent == Absent && it.doomed.Guest?) || (Wanted(spec) && !it.torn && !spec.built) then [it.first] else [])
    + (if AsksAgain(m, spec, it) then [it.second] else [])
  }

  function InstanceActs(m: Memory, spec: InstanceSpec, it: Item): seq<Kind> {
    (if spec.intent == Absent && Destroys(m, spec.id, it) then [Destroy] else [])
    + (if IsCreated(m, spec, it) && it.sight.places then [Build] else [])
    + (if StandsAndStarts(m, spec, it) || IsMadeAndStarts(m, spec, it) then [Start] else [])
    + (if IsTakenBack(m, spec, it) then [TakeBack] else [])
  }

  /** **What an instance's turn asks**: of Core, its re-reads; of the hypervisor, a
      destroy, a build, a start and a take-back, each if and only if its own
      conditions hold, in this order, once each, and nothing else. */
  lemma WhatAnInstanceAsks(t: Trace, spec: InstanceSpec, it: Item)
    ensures Did(t, OfInstance(t, spec, it), spec.id, InstanceAsks(t.memory, spec, it), InstanceActs(t.memory, spec, it))
  {
    if !IsLookedAt(t.memory, spec, it) {
      AnInstanceNotLookedAtAsks(t, spec, it);
    } else if it.sight.Standing? {
      AStandingInstanceAsks(t, spec, it);
    } else if it.sight.Nowhere? {
      ACreatedInstanceAsks(t, spec, it);
    } else {
      AnOtherInstanceAsks(t, spec, it);
    }
  }

  lemma AnInstanceNotLookedAtAsks(t: Trace, spec: InstanceSpec, it: Item)
    requires !IsLookedAt(t.memory, spec, it)
    ensures Did(t, OfInstance(t, spec, it), spec.id, InstanceAsks(t.memory, spec, it), InstanceActs(t.memory, spec, it))
  {
    WhatADeleteDoes(t, spec.id, it);
    assert InstanceActs(t.memory, spec, it) == if spec.intent == Absent && Destroys(t.memory, spec.id, it) then [Destroy] else [];
  }

  lemma AnOtherInstanceAsks(t: Trace, spec: InstanceSpec, it: Item)
    requires IsLookedAt(t.memory, spec, it) && !it.sight.Standing? && !it.sight.Nowhere?
    ensures Did(t, OfInstance(t, spec, it), spec.id, InstanceAsks(t.memory, spec, it), InstanceActs(t.memory, spec, it))
  {
    assert InstanceActs(t.memory, spec, it) == [];
  }

  lemma AStandingInstanceAsks(t: Trace, spec: InstanceSpec, it: Item)
    requires IsLookedAt(t.memory, spec, it) && it.sight.Standing?
    ensures Did(t, OfInstance(t, spec, it), spec.id, InstanceAsks(t.memory, spec, it), InstanceActs(t.memory, spec, it))
  {
    var s, e := it.sight, OfInstance(t, spec, it);
    var m := Then(t.memory, spec, it);
    var asks := if s.steady && spec.intent == Running && !s.running then [it.second] else [];
    var kinds := if Starts(m, spec, s, it.second) then [Start] else [];
    assert kinds == InstanceActs(t.memory, spec, it);
    var read := if spec.built then t else Asking(t, it.first);
    WhatStandsDoes(read, spec, s, it.second, false, SeenThenFailed(if s.running then Up else Down));
    assert Did(read, e, spec.id, asks, kinds);
    if spec.built {
      assert asks == InstanceAsks(t.memory, spec, it);
    } else {
      DidAfterAsking(t, it.first, e, spec.id, asks, kinds);
      assert [it.first] + asks == InstanceAsks(t.memory, spec, it);
    }
  }

  lemma ACreatedInstanceAsks(t: Trace, spec: InstanceSpec, it: Item)
    requires IsLookedAt(t.memory, spec, it) && it.sight.Nowhere?
    ensures Did(t, OfInstance(t, spec, it), spec.id, InstanceAsks(t.memory, spec, it), InstanceActs(t.memory, spec, it))
  {
    if !spec.built {
      var s, e := it.sight, OfInstance(t, spec, it);
      var m := Then(t.memory, spec, it);
      var asks := if s.places && s.made && spec.intent == Running then [it.second] else [];
      var kinds := (if s.places then [Build] else [])
                   + (if MayStart(m, spec, s, it.second) && s.ready then [Start] else [])
                   + (if Fails(m, spec, s, it.second) && s.takes then [TakeBack] else []);
      assert kinds == InstanceActs(t.memory, spec, it);
      WhatACreateDoes(Asking(t, it.first), spec, s, it.second);
      assert Did(Asking(t, it.first), e, spec.id, asks, kinds);
      DidAfterAsking(t, it.first, e, spec.id, asks, kinds);
      assert [it.first] + asks == InstanceAsks(t.memory, spec, it);
    }
  }

  predicate IsToldUp(m: Memory, spec: InstanceSpec, it: Item) {
    var looked, s := IsLookedAt(m, spec, it), it.sight;
    || (looked && s == Unsettled(Up))
    || (looked && s.Standing? && s.steady && s.sound && spec.intent == Running && (s.running || StandsAndStarts(m, spec, it)))
    || (IsMadeAndStarts(m, spec, it) && s.starts)
  }

  predicate IsToldDown(m: Memory, spec: InstanceSpec, it: Item) {
    var looked, s := IsLookedAt(m, spec, it), it.sight;
    || (spec.intent == Absent && (it.doomed == NothingClaimed || (Destroys(m, spec.id, it) && it.doomed.sound)))
    || (looked && s == Unsettled(Down))
    || (looked && s.Standing? && s.steady && s.sound && (spec.intent == Stopped || (!s.running && !StandsAndStarts(m, spec, it))))
    || (IsCreated(m, spec, it) && s.places && s.made && !MayStart(Then(m, spec, it), spec, s, it.second))
  }

  predicate IsNotLookedAt(m: Memory, spec: InstanceSpec, it: Item) {
    || (Wanted(spec) && !it.torn && !spec.built && !SaysWanted(Says(m, it.first, spec.id)))
    || (IsLookedAt(m, spec, it) && it.sight == CantLook)
  }

  /** **What is told of an instance**, each end if and only if. */
  lemma WhatIsToldOfAnInstance(t: Trace, spec: InstanceSpec, it: Item)
    ensures var end, m, s := OfInstance(t, spec, it).end, t.memory, it.sight;
            && (end == Told(Up) <==> IsToldUp(m, spec, it))
            && (end == Told(Down) <==> IsToldDown(m, spec, it))
            && (end == Told(Errored) <==> IsLookedAt(m, spec, it) && (s == Unsettled(Errored) || (s.Nowhere? && spec.built)))
            && (end.SeenThenFailed? <==> IsLookedAt(m, spec, it) && s.Standing? && !(s.steady && s.sound))
            && (end == NotLooked <==> IsNotLookedAt(m, spec, it))
            && (end == Unread <==> spec.intent == Unknown)
  {
    var read := if spec.built then t else Asking(t, it.first);
    if !IsLookedAt(t.memory, spec, it) {
      WhatADeleteDoes(t, spec.id, it);
    } else if it.sight.Standing? {
      WhatStandsDoes(read, spec, it.sight, it.second, false, SeenThenFailed(if it.sight.running then Up else Down));
    } else if it.sight.Nowhere? && !spec.built {
      WhatACreateDoes(read, spec, it.sight, it.second);
    }
  }

  // ---- A worker ----

  predicate WorkerIsLookedAt(spec: InstanceSpec, it: Item) {
    Wanted(spec) && !it.torn
  }

  /** Whether the pass's view sent it as built, as far as that is known. */
  function Sent(m: Memory, version: nat, id: string): Option<bool> {
    BuiltIn(m.built, version, id)
  }

  predicate WorkerStandsAndStarts(m: Memory, spec: InstanceSpec, it: Item) {
    WorkerIsLookedAt(spec, it) && it.sight.Standing? && Starts(m, spec, it.sight, it.first)
  }

  predicate WorkerIsMade(m: Memory, version: nat, spec: InstanceSpec, it: Item) {
    && WorkerIsLookedAt(spec, it) && it.sight.Nowhere?
    && MakesWorker(m, spec, it.sight, it.first, Sent(m, version, spec.id))
  }

  function WorkerAsks(m: Memory, version: nat, spec: InstanceSpec, it: Item): seq<Answer> {
    if || (spec.intent == Absent && it.doomed.Guest?)
       || (WorkerIsLookedAt(spec, it) && it.sight.Standing? && it.sight.steady && spec.intent == Running && !it.sight.running)
       || (WorkerIsLookedAt(spec, it) && it.sight.Nowhere? && Sent(m, version, spec.id) == Some(false))
    then [it.first] else []
  }

  function WorkerActs(m: Memory, version: nat, spec: InstanceSpec, it: Item): seq<Kind> {
    var s, makes := it.sight, WorkerIsMade(m, version, spec, it);
    (if spec.intent == Absent && Destroys(m, spec.id, it) then [Destroy] else [])
    + (if makes then [Build] else [])
    + (if WorkerStandsAndStarts(m, spec, it) then [Start] else [])
    + (if makes && s.made && s.ready then [StartBuilt] else [])
    + (if makes && !(s.made && s.ready && s.starts) && s.takes then [TakeBack] else [])
  }

  /** **What a worker's turn asks**, in the same way. */
  lemma WhatAWorkerAsks(t: Trace, version: nat, spec: InstanceSpec, it: Item)
    ensures Did(t, OfWorker(t, version, spec, it), spec.id, WorkerAsks(t.memory, version, spec, it), WorkerActs(t.memory, version, spec, it))
  {
    if WorkerIsLookedAt(spec, it) && it.sight.Standing? {
      AStandingWorkerAsks(t, version, spec, it);
    } else if WorkerIsLookedAt(spec, it) && it.sight.Nowhere? {
      AMadeWorkerAsks(t, version, spec, it);
    } else {
      AnOtherWorkerAsks(t, version, spec, it);
    }
  }

  lemma AStandingWorkerAsks(t: Trace, version: nat, spec: InstanceSpec, it: Item)
    requires WorkerIsLookedAt(spec, it) && it.sight.Standing?
    ensures Did(t, OfWorker(t, version, spec, it), spec.id, WorkerAsks(t.memory, version, spec, it), WorkerActs(t.memory, version, spec, it))
  {
    WhatStandsDoes(t, spec, it.sight, it.first, true, Failed);
    assert WorkerActs(t.memory, version, spec, it) == if Starts(t.memory, spec, it.sight, it.first) then [Start] else [];
  }

  lemma AnOtherWorkerAsks(t: Trace, version: nat, spec: InstanceSpec, it: Item)
    requires !WorkerIsLookedAt(spec, it) || !(it.sight.Standing? || it.sight.Nowhere?)
    ensures Did(t, OfWorker(t, version, spec, it), spec.id, WorkerAsks(t.memory, version, spec, it), WorkerActs(t.memory, version, spec, it))
  {
    WhatADeleteDoes(t, spec.id, it);
    assert WorkerActs(t.memory, version, spec, it) == if spec.intent == Absent && Destroys(t.memory, spec.id, it) then [Destroy] else [];
  }

  lemma AMadeWorkerAsks(t: Trace, version: nat, spec: InstanceSpec, it: Item)
    requires WorkerIsLookedAt(spec, it) && it.sight.Nowhere?
    ensures Did(t, OfWorker(t, version, spec, it), spec.id, WorkerAsks(t.memory, version, spec, it), WorkerActs(t.memory, version, spec, it))
  {
    var s, makes := it.sight, WorkerIsMade(t.memory, version, spec, it);
    WhatAWorkersCreateDoes(t, spec, s, it.first, Sent(t.memory, version, spec.id));
    assert WorkerActs(t.memory, version, spec, it) ==
           (if makes then [Build] else [])
           + (if makes && s.made && s.ready then [StartBuilt] else [])
           + (if makes && !(s.made && s.ready && s.starts) && s.takes then [TakeBack] else []);
  }

  /** **What is told of a worker**, each end if and only if. */
  lemma WhatIsToldOfAWorker(t: Trace, version: nat, spec: InstanceSpec, it: Item)
    ensures var e, m, s := OfWorker(t, version, spec, it), t.memory, it.sight;
            var looked, sent := WorkerIsLookedAt(spec, it), Sent(t.memory, version, spec.id);
            && (e.end == Told(Up) <==>
                  || (looked && s == Unsettled(Up))
                  || (looked && s.Standing? && s.steady && s.sound && spec.intent == Running
                        && (s.running || WorkerStandsAndStarts(m, spec, it)))
                  || (WorkerIsMade(m, version, spec, it) && s.made && s.ready && s.starts))
            && (e.end == Told(Down) <==>
                  || (spec.intent == Absent && (it.doomed == NothingClaimed || (Destroys(m, spec.id, it) && it.doomed.sound)))
                  || (looked && s == Unsettled(Down))
                  || (looked && s.Standing? && s.steady && s.sound
                        && (spec.intent == Stopped || (!s.running && !SaysRunning(Says(m, it.first, spec.id))))))
            && (e.end == Told(Errored) <==> looked && (s == Unsettled(Errored) || (s.Nowhere? && sent == Some(true))))
            && !e.end.SeenThenFailed?
            && (e.end == NotLooked <==>
                  looked && (s == CantLook
                             || (s.Nowhere? && (sent == None || (sent == Some(false) && !SaysWanted(Says(m, it.first, spec.id)))))))
            && (e.end == Unread <==> spec.intent == Unknown)
  {
    WhatADeleteDoes(t, spec.id, it);
    if WorkerIsLookedAt(spec, it) && it.sight.Standing? {
      WhatStandsDoes(t, spec, it.sight, it.first, true, Failed);
    }
    if WorkerIsLookedAt(spec, it) && it.sight.Nowhere? {
      WhatAWorkersCreateDoes(t, spec, it.sight, it.first, Sent(t.memory, version, spec.id));
    }
  }

  // ---- Every item of a pass ----

  /** What the item's turn leaves, and how it ends: of an instance or a worker. */
  ghost predicate IsTurn(version: Option<nat>, spec: InstanceSpec, it: Item, before: Trace, after: Trace, end: End) {
    Ended(after, end) == if version.Some? then OfWorker(before, version.value, spec, it) else OfInstance(before, spec, it)
  }

  /** **Every item has its turn, in order**: each on what the one before left, and
      its end is the one counted for it. */
  lemma {:induction false} EveryItemHasItsTurn(t: Trace, version: Option<nat>, specs: seq<InstanceSpec>, items: seq<Item>, k: nat, i: nat)
    requires i < k <= |specs| == |items|
    ensures Looped(t, version, specs, items, 0).trace == t
    ensures IsTurn(version, specs[i], items[i], Looped(t, version, specs, items, i).trace,
                   Looped(t, version, specs, items, i + 1).trace, Looped(t, version, specs, items, k).ends[i])
  {
    if i < k - 1 {
      EveryItemHasItsTurn(t, version, specs, items, k - 1, i);
    }
  }

  /** **A pass is the workers' turns on its view's revision, then the instances'.** */
  lemma WhatAPassRuns(m: Memory, view: Desired, workerItems: seq<Item>, items: seq<Item>)
    requires |workerItems| == |view.workers| && |items| == |view.instances|
    ensures var (w, i) := Run(m, view, workerItems, items);
            && |w.ends| == |view.workers| && |i.ends| == |view.instances|
            && (forall k :: 0 <= k < |view.workers| ==>
                  IsTurn(Some(view.version), view.workers[k], workerItems[k],
                         Looped(Trace(m, [], []), Some(view.version), view.workers, workerItems, k).trace,
                         Looped(Trace(m, [], []), Some(view.version), view.workers, workerItems, k + 1).trace, w.ends[k]))
            && w.trace == Looped(Trace(m, [], []), Some(view.version), view.workers, workerItems, |view.workers|).trace
            && (forall k :: 0 <= k < |view.instances| ==>
                  IsTurn(None, view.instances[k], items[k], Looped(w.trace, None, view.instances, items, k).trace,
                         Looped(w.trace, None, view.instances, items, k + 1).trace, i.ends[k]))
  {
    var (w, i) := Run(m, view, workerItems, items);
    forall k | 0 <= k < |view.workers|
      ensures IsTurn(Some(view.version), view.workers[k], workerItems[k],
                     Looped(Trace(m, [], []), Some(view.version), view.workers, workerItems, k).trace,
                     Looped(Trace(m, [], []), Some(view.version), view.workers, workerItems, k + 1).trace, w.ends[k])
    {
      EveryItemHasItsTurn(Trace(m, [], []), Some(view.version), view.workers, workerItems, |view.workers|, k);
    }
    forall k | 0 <= k < |view.instances|
      ensures IsTurn(None, view.instances[k], items[k], Looped(w.trace, None, view.instances, items, k).trace,
                     Looped(w.trace, None, view.instances, items, k + 1).trace, i.ends[k])
    {
      EveryItemHasItsTurn(w.trace, None, view.instances, items, |view.instances|, k);
    }
  }

  // ---- The view a pass goes by ----

  /** **What a pass goes by**: no view where Core did not answer, or in a protocol not
      spoken, or with `unchanged` and none to be had; else Core's answer, or the one
      in hand, or the one asked for again. An answer in full is in hand from then
      on, and its workers' word known; and the head was asked about the view. */
  lemma WhatAPassGoesBy(m: Memory, a: Answer, again: Option<Desired>, torn: set<string>)
    ensures var (after, view) := Taken(m, a, again, torn);
            && (view == None <==> a.NoAnswer? || !a.spoken || (a.same && m.held == None && again == None))
            && (view.Some? ==>
                  && (!a.same ==> view == Some(a.view) && after.held == view)
                  && (a.same ==> after.held == m.held && view == if m.held.Some? then m.held else again)
                  && after.head == Observed(m.head, false, view.value.version, WantsAgain(view.value, torn), a.named))
            && (view == None ==> after.held == m.held && after.head == m.head)
            && after.built == if a.NoAnswer? || a.same then m.built else Heard(m.built, a.view)
  {
  }

  /** What `torn` is asked of: everything the view wants, machine or worker. */
  lemma WhatIsWantedAgain(view: Desired, torn: set<string>)
    ensures WantsAgain(view, torn) <==>
            exists spec :: spec in view.instances + view.workers && spec.intent != Absent && spec.id in torn
  {
    var all := view.instances + view.workers;
    if spec :| spec in all && spec.intent != Absent && spec.id in torn {
      var i :| 0 <= i < |all| && all[i] == spec;
      if i < |view.instances| {
        assert view.instances[i] == spec;
      } else {
        assert view.workers[i - |view.instances|] == spec;
      }
    }
    if i :| 0 <= i < |view.instances| && view.instances[i].intent != Absent && view.instances[i].id in torn {
      assert view.instances[i] in all;
    }
    if i :| 0 <= i < |view.workers| && view.workers[i].intent != Absent && view.workers[i].id in torn {
      assert view.workers[i] in all;
    }
  }

  /** **In a restore a pass acts on nothing**: Core names one, or its view is below the
      head, or wants an attempt torn down here. */
  lemma APassInARestore(m: Memory, a: Answer, again: Option<Desired>, torn: set<string>)
    requires Taken(m, a, again, torn).1.Some? && m.head.armed
    ensures var (after, view) := Taken(m, a, again, torn);
            && (a.named.Some? ==> InRestore(after.head))
            && (m.head.mode.None? ==>
                  (InRestore(after.head) <==>
                     a.named.Some? || 0 < view.value.version < m.head.revision || WantsAgain(view.value, torn)))
  {
    var view := Taken(m, a, again, torn).1.value;
    WhenARestoreHolds(m.head, false, view.version, WantsAgain(view, torn), a.named);
  }
}
