/**
 Acts on fresh views (`src/agent.rs:1331-1339, 4549-4615`): every build, gated
 start and destroy asked for by a pass's two loops waits for Core's view read
 again, and that view, asked for after the pass's own and never older than the
 one held, names the id as the act needs it. A rollback takes back only what its
 own create made. What settles the journal before the loops is `Recovery`'s.
 */
module Licence {
  import opened Wrappers
  import opened Wire
  import opened RestoreHead
  import opened FreshView
  import opened Reconcile

  /** What each act needs of the answer it waited for. */
  predicate Licenses(kind: Kind, says: Option<(Lifecycle, bool)>) {
    match kind
    case Build => SaysWanted(says)
    case Start => SaysRunning(says)
    case StartBuilt => SaysWanted(says)
    case Destroy => SaysAbsent(says)
    case TakeBack => false
  }

  /** The last re-read before the act, made after the pass took its view, was
      answered with a view this agent may act on, and that view licenses it. */
  ghost predicate Licensed(m: Memory, asks: seq<Answer>, act: Act) {
    && 1 <= act.asked <= |asks|
    && Licenses(act.kind, Says(Asked(m, asks[..act.asked - 1]), asks[act.asked - 1], act.id))
  }

  /** A rollback's destroy: of the machine the same create built just before, and
      perhaps asked to start. */
  ghost predicate TakesBack(acts: seq<Act>, i: nat)
    requires i < |acts|
  {
    || (1 <= i && IsBuild(acts[i - 1], acts[i].id))
    || (2 <= i && IsBuild(acts[i - 2], acts[i].id) && acts[i - 1].id == acts[i].id
          && (acts[i - 1].kind == Start || acts[i - 1].kind == StartBuilt))
  }

  predicate IsBuild(act: Act, id: string) {
    act.kind == Build && act.id == id
  }

  ghost predicate AllLicensed(m: Memory, t: Trace) {
    && t.memory == Asked(m, t.asks)
    && forall i :: 0 <= i < |t.acts| ==>
         if t.acts[i].kind == TakeBack then TakesBack(t.acts, i) else Licensed(m, t.asks, t.acts[i])
  }

  lemma AskingKeeps(m: Memory, t: Trace, a: Answer)
    requires AllLicensed(m, t)
    ensures AllLicensed(m, Asking(t, a))
    ensures Asked(m, Asking(t, a).asks[..|t.asks|]) == t.memory && Asking(t, a).asks[|t.asks|] == a
  {
    var after := Asking(t, a);
    assert after.asks[..|t.asks|] == t.asks;
    forall i | 0 <= i < |after.acts| && after.acts[i].kind != TakeBack ensures Licensed(m, after.asks, after.acts[i]) {
      var act := t.acts[i];
      assert Licensed(m, t.asks, act);
      assert after.asks[..act.asked - 1] == t.asks[..act.asked - 1];
    }
  }

  /** An act right after the answer `a`, which says what it needs. */
  lemma ActingKeeps(m: Memory, before: Trace, a: Answer, t: Trace, kind: Kind, id: string)
    requires AllLicensed(m, before) && AllLicensed(m, t) && t.asks == before.asks + [a]
    requires Licenses(kind, Says(before.memory, a, id))
    ensures AllLicensed(m, Acting(t, kind, id))
  {
    assert t.asks[..|before.asks|] == before.asks;
    OneActMore(m, t, kind, id);
  }

  lemma OneActMore(m: Memory, t: Trace, kind: Kind, id: string)
    requires AllLicensed(m, t)
    requires var after := Acting(t, kind, id);
             if kind == TakeBack then TakesBack(after.acts, |t.acts|) else Licensed(m, t.asks, after.acts[|t.acts|])
    ensures AllLicensed(m, Acting(t, kind, id))
  {
    var after := Acting(t, kind, id);
    forall i | 0 <= i < |after.acts|
      ensures if after.acts[i].kind == TakeBack then TakesBack(after.acts, i) else Licensed(m, after.asks, after.acts[i])
    {
      if i < |t.acts| {
        assert after.acts[i] == t.acts[i];
        assert t.acts[i].kind == TakeBack ==> TakesBack(t.acts, i);
      }
    }
  }

  /** A create's rollback, after its build and perhaps its start. */
  lemma RolledBackKeeps(m: Memory, t: Trace, spec: InstanceSpec, s: Sight)
    requires AllLicensed(m, t) && s.Nowhere?
    requires TakesBack(t.acts + [Act(TakeBack, spec.id, |t.asks|)], |t.acts|)
    ensures AllLicensed(m, RolledBack(t, spec, s).trace)
  {
    if s.takes {
      OneActMore(m, t, TakeBack, spec.id);
    }
  }

  // ---- Item by item ----

  lemma DeletedKeeps(m: Memory, t: Trace, id: string, it: Item)
    requires AllLicensed(m, t)
    ensures AllLicensed(m, Deleted(t, id, it).trace)
  {
    AskingKeeps(m, t, it.first);
    if it.doomed.Guest? && SaysAbsent(Says(t.memory, it.first, id)) {
      ActingKeeps(m, t, it.first, Asking(t, it.first), Destroy, id);
    }
  }

  lemma ConvergedKeeps(m: Memory, t: Trace, spec: InstanceSpec, s: Sight, a: Answer, worker: bool, failed: End)
    requires AllLicensed(m, t) && s.Standing?
    ensures AllLicensed(m, Converged(t, spec, s, a, worker, failed).trace)
  {
    AskingKeeps(m, t, a);
    if SaysRunning(Says(t.memory, a, spec.id)) {
      ActingKeeps(m, t, a, Asking(t, a), Start, spec.id);
    }
  }

  /** A machine is created on the re-read `a`, and started on a second one. */
  lemma CreatedKeeps(m: Memory, before: Trace, a: Answer, t: Trace, spec: InstanceSpec, s: Sight, again: Answer)
    requires AllLicensed(m, before) && t == Asking(before, a) && s.Nowhere?
    requires SaysWanted(Says(before.memory, a, spec.id))
    ensures AllLicensed(m, Created(t, spec, s, again).trace)
  {
    AskingKeeps(m, before, a);
    ActingKeeps(m, before, a, t, Build, spec.id);
    var built := Acting(t, Build, spec.id);
    if s.places && !s.made {
      RolledBackKeeps(m, built, spec, s);
    }
    if s.places && s.made && spec.intent == Running {
      StartedKeeps(m, built, spec, s, again);
    }
  }

  /** The second half of a create: the start, on a re-read of its own. */
  lemma StartedKeeps(m: Memory, built: Trace, spec: InstanceSpec, s: Sight, again: Answer)
    requires AllLicensed(m, built) && s.Nowhere? && s.places && s.made && spec.intent == Running
    requires |built.acts| > 0 && IsBuild(built.acts[|built.acts| - 1], spec.id)
    ensures AllLicensed(m, Asking(built, again))
    ensures SaysRunning(Says(built.memory, again, spec.id)) ==>
              && AllLicensed(m, RolledBack(Asking(built, again), spec, s).trace)
              && AllLicensed(m, Acting(Asking(built, again), Start, spec.id))
              && AllLicensed(m, RolledBack(Acting(Asking(built, again), Start, spec.id), spec, s).trace)
  {
    AskingKeeps(m, built, again);
    if SaysRunning(Says(built.memory, again, spec.id)) {
      RolledBackKeeps(m, Asking(built, again), spec, s);
      ActingKeeps(m, built, again, Asking(built, again), Start, spec.id);
      RolledBackKeeps(m, Acting(Asking(built, again), Start, spec.id), spec, s);
    }
  }

  lemma InstanceKeeps(m: Memory, t: Trace, spec: InstanceSpec, it: Item)
    requires AllLicensed(m, t)
    ensures AllLicensed(m, OfInstance(t, spec, it).trace)
  {
    DeletedKeeps(m, t, spec.id, it);
    AskingKeeps(m, t, it.first);
    var read := if spec.built then t else Asking(t, it.first);
    if it.sight.Standing? {
      ConvergedKeeps(m, read, spec, it.sight, it.second, false, SeenThenFailed(if it.sight.running then Up else Down));
    }
    if it.sight.Nowhere? && !spec.built && SaysWanted(Says(t.memory, it.first, spec.id)) {
      CreatedKeeps(m, t, it.first, read, spec, it.sight, it.second);
    }
  }

  lemma WorkerCreatedKeeps(m: Memory, t: Trace, spec: InstanceSpec, s: Sight, a: Answer, built: Option<bool>)
    requires AllLicensed(m, t) && s.Nowhere?
    ensures AllLicensed(m, WorkerCreated(t, spec, s, a, built).trace)
  {
    AskingKeeps(m, t, a);
    if SaysWanted(Says(t.memory, a, spec.id)) {
      var read := Asking(t, a);
      ActingKeeps(m, t, a, read, Build, spec.id);
      var made := Acting(read, Build, spec.id);
      ActingKeeps(m, t, a, made, StartBuilt, spec.id);
      RolledBackKeeps(m, made, spec, s);
      RolledBackKeeps(m, Acting(made, StartBuilt, spec.id), spec, s);
    }
  }

  lemma WorkerKeeps(m: Memory, t: Trace, version: nat, spec: InstanceSpec, it: Item)
    requires AllLicensed(m, t)
    ensures AllLicensed(m, OfWorker(t, version, spec, it).trace)
  {
    DeletedKeeps(m, t, spec.id, it);
    if it.sight.Standing? {
      ConvergedKeeps(m, t, spec, it.sight, it.first, true, Failed);
    }
    if it.sight.Nowhere? {
      WorkerCreatedKeeps(m, t, spec, it.sight, it.first, BuiltIn(t.memory.built, version, spec.id));
    }
  }

  lemma {:induction false} LoopedKeeps(m: Memory, t: Trace, version: Option<nat>, specs: seq<InstanceSpec>, items: seq<Item>, k: nat)
    requires AllLicensed(m, t) && k <= |specs| == |items|
    ensures AllLicensed(m, Looped(t, version, specs, items, k).trace)
  {
    if k > 0 {
      LoopedKeeps(m, t, version, specs, items, k - 1);
      var before := Looped(t, version, specs, items, k - 1).trace;
      if version.Some? {
        WorkerKeeps(m, before, version.value, specs[k - 1], items[k - 1]);
      } else {
        InstanceKeeps(m, before, specs[k - 1], items[k - 1]);
      }
    }
  }

  /** **Every act of a pass's loops is licensed.** */
  lemma EveryActIsLicensed(m: Memory, view: Desired, workerItems: seq<Item>, items: seq<Item>)
    requires |workerItems| == |view.workers| && |items| == |view.instances|
    ensures AllLicensed(m, Run(m, view, workerItems, items).1.trace)
  {
    var t := Trace(m, [], []);
    LoopedKeeps(m, t, Some(view.version), view.workers, workerItems, |view.workers|);
    LoopedKeeps(m, Run(m, view, workerItems, items).0.trace, None, view.instances, items, |view.instances|);
  }

  // ---- What a licence is worth ----

  lemma OneAskMore(m: Memory, asks: seq<Answer>, k: nat)
    requires 1 <= k <= |asks|
    ensures Asked(m, asks[..k]) == After(Asked(m, asks[..k - 1]), asks[k - 1])
  {
    assert asks[..k][..k - 1] == asks[..k - 1];
  }

  /** The view names the id as that kind of act needs it. */
  predicate NamesFor(kind: Kind, v: Desired, id: string, spec: InstanceSpec) {
    && spec in v.instances + v.workers && spec.id == id
    && match kind
       case Destroy => spec.intent == Absent
       case Start => spec.intent == Running
       case _ => (spec.intent == Running || spec.intent == Stopped) && (spec in v.instances ==> !spec.built)
  }

  /** What one answer that licenses an act says, on what was in hand. */
  lemma OneLicenceIsAView(before: Memory, a: Answer, kind: Kind, id: string)
    requires Licenses(kind, Says(before, a, id))
    ensures var after := After(before, a);
            && a.Answer? && !InRestore(after.head) && after.held.Some?
            && var v := after.held.value;
            && (!a.same ==> v == a.view)
            && Known(before) <= v.version
            && (Names(v.instances, id) || Names(v.workers, id))
            && exists spec :: NamesFor(kind, v, id, spec)
  {
    var v := After(before, a).held.value;
    var found := if Find(v.instances, id).Some? then Find(v.instances, id).value else Find(v.workers, id).value;
    assert found in v.instances + v.workers;
    assert NamesFor(kind, v, id, found);
  }

  /** **A licence is a view**: in hand once the answer was heard, the agent held by
      no restore, not older than the view held at the ask or when the pass began,
      and naming the id with the act's intent; for a build, not built. */
  lemma ALicenceIsAView(m: Memory, asks: seq<Answer>, act: Act)
    requires Licensed(m, asks, act)
    ensures var before, after := Asked(m, asks[..act.asked - 1]), Asked(m, asks[..act.asked]);
            var a := asks[act.asked - 1];
            && a.Answer? && !InRestore(after.head) && after.held.Some?
            && var v := after.held.value;
            && (!a.same ==> v == a.view)
            && Known(m) <= Known(before) <= v.version
            && (Names(v.instances, act.id) || Names(v.workers, act.id))
            && exists spec :: NamesFor(act.kind, v, act.id, spec)
  {
    var before := Asked(m, asks[..act.asked - 1]);
    OneAskMore(m, asks, act.asked);
    NeverBack(m, asks[..act.asked - 1], 0);
    assert asks[..act.asked - 1][..0] == [];
    OneLicenceIsAView(before, asks[act.asked - 1], act.kind, act.id);
  }

  // ---- When an act can be on a view older than the pass's own ----

  /** What a pass meets: the view asked for again in full, the attempts torn down
      here, and its items' answers. */
  datatype Met = Met(again: Option<Desired>, torn: set<string>, workerItems: seq<Item>, items: seq<Item>)

  /** The pass goes by a view of that revision, and acts. */
  ghost predicate GoesBy(m: Memory, a: Answer, version: nat, met: Met) {
    var (start, view) := Taken(m, a, met.again, met.torn);
    && view.Some? && view.value.version == version && !InRestore(start.head)
    && |met.workerItems| == |view.value.workers| && |met.items| == |view.value.instances|
  }

  ghost function TraceOf(m: Memory, a: Answer, version: nat, met: Met): Trace
    requires GoesBy(m, a, version, met)
  {
    var (start, view) := Taken(m, a, met.again, met.torn);
    Run(start, view.value, met.workerItems, met.items).1.trace
  }

  /** An act other than a rollback's, on a view older than that revision. */
  ghost predicate ActsOnOlder(start: Memory, t: Trace, version: nat) {
    exists i :: 0 <= i < |t.acts| && IsOnOlder(start, t.asks, t.acts[i], version)
  }

  ghost predicate IsOnOlder(start: Memory, asks: seq<Answer>, act: Act, version: nat) {
    && act.kind != TakeBack && act.asked <= |asks|
    && var held := Asked(start, asks[..act.asked]).held;
    held.Some? && held.value.version < version
  }

  /** Core names no restore, and a view carries its revision. */
  predicate IsPlain(a: Answer) {
    a.Answer? ==> a.named == None && (a.same || a.view.version != 0)
  }

  ghost predicate MayActOnOlder(m: Memory, a: Answer, version: nat, plain: bool) {
    exists met ::
      && GoesBy(m, a, version, met)
      && ActsOnOlder(Taken(m, a, met.again, met.torn).0, TraceOf(m, a, version, met), version)
      && (plain ==> forall k :: 0 <= k < |TraceOf(m, a, version, met).asks| ==> IsPlain(TraceOf(m, a, version, met).asks[k]))
  }

  /** Told `unchanged`, with no view in hand. */
  predicate NotInHand(m: Memory, a: Answer) {
    a.Answer? && a.same && m.held.None?
  }

  /** **The pass's own view bounds every act's**, when the pass went by a view
      it holds: an answer in full, or `unchanged` with a view in hand. */
  lemma NoActOnAnOlderViewThanThePasses(m: Memory, a: Answer, version: nat, met: Met)
    requires GoesBy(m, a, version, met) && !NotInHand(m, a)
    ensures !ActsOnOlder(Taken(m, a, met.again, met.torn).0, TraceOf(m, a, version, met), version)
  {
    var (start, view) := Taken(m, a, met.again, met.torn);
    EveryActIsLicensed(start, view.value, met.workerItems, met.items);
    var t := TraceOf(m, a, version, met);
    forall i | 0 <= i < |t.acts| && t.acts[i].kind != TakeBack ensures !IsOnOlder(start, t.asks, t.acts[i], version) {
      ALicenceIsAView(start, t.asks, t.acts[i]);
    }
  }

  /** A view not held, of an armed agent's pass: the head bounds every view it
      then hears plainly. */
  lemma {:induction false} TheHeadBounds(start: Memory, asks: seq<Answer>, version: nat)
    requires start.held.None? && forall k :: 0 <= k < |asks| ==> IsPlain(asks[k])
    ensures var m := Asked(start, asks);
            && (m.held.Some? ==> m.held.value.version != 0)
            && (start.head.armed && start.head.mode.None? && start.head.revision >= version ==>
                  && (m.held.Some? ==> m.held.value.version >= version)
                  && m.head.armed && !Ends(m.head, None) && (m.head.mode.None? ==> m.head.revision >= version))
  {
    if asks != [] {
      TheHeadBounds(start, asks[..|asks| - 1], version);
      assert IsPlain(asks[|asks| - 1]);
    }
  }

  lemma TheHeadAtTheStart(h: Head, version: nat, again: bool, named: Option<string>)
    requires h.armed && !InRestore(Observed(h, false, version, again, named))
    ensures var after := Observed(h, false, version, again, named);
            after.armed && after.mode.None? && (version == 0 || after.revision >= version)
  {
  }

  /** Read plainly, an act on an older view takes an agent not armed and a revision
      above one. */
  lemma OlderTakes(m: Memory, a: Answer, version: nat, met: Met)
    requires GoesBy(m, a, version, met) && NotInHand(m, a)
    requires var t := TraceOf(m, a, version, met);
             ActsOnOlder(Taken(m, a, met.again, met.torn).0, t, version) && forall k :: 0 <= k < |t.asks| ==> IsPlain(t.asks[k])
    ensures version > 1 && !m.head.armed
  {
    var (start, view) := Taken(m, a, met.again, met.torn);
    var t := TraceOf(m, a, version, met);
    var i :| 0 <= i < |t.acts| && IsOnOlder(start, t.asks, t.acts[i], version);
    TheHeadBounds(start, t.asks[..t.acts[i].asked], version);
    if m.head.armed {
      TheHeadAtTheStart(m.head, version, WantsAgain(view.value, met.torn), a.named);
    }
  }

  const M := "m"
  const GONE := InstanceSpec(M, Absent, true)

  function Older(version: nat): Answer {
    Answer(false, Desired(version, [GONE], []), None, true)
  }

  /** The machine is there to be destroyed, and Core's answer is the older view. */
  function Doomed(version: nat): Item {
    Item(false, true, Guest(true), Fails, Older(version), NoAnswer)
  }

  lemma ADestroyOnAnOlderView(start: Memory, version: nat, older: nat)
    requires start.held.None? && !InRestore(start.head) && older < version && (older == 0 || !start.head.armed)
    ensures var t := Run(start, Desired(version, [GONE], []), [], [Doomed(older)]).1.trace;
            t.asks == [Older(older)] && t.acts == [Act(Destroy, M, 1)] && ActsOnOlder(start, t, version)
  {
    var it := Doomed(older);
    var view := Desired(version, [GONE], []);
    var t := Trace(start, [], []);
    assert Looped(t, Some(version), view.workers, [], 0).trace == t;
    assert Says(start, it.first, M) == Some((Absent, true));
    assert Looped(t, None, view.instances, [it], 0).trace == t;
    var did := Looped(t, None, view.instances, [it], 1).trace;
    assert did == OfInstance(t, GONE, it).trace;
    assert did.asks[..1] == did.asks;
    OneAskMore(start, did.asks, 1);
    assert Asked(start, did.asks[..0]) == start;
    assert IsOnOlder(start, did.asks, did.acts[0], version);
  }

  /** A pass that goes by a view of that revision and does not hold it can go by
      this one. */
  lemma AnyViewWillDo(m: Memory, a: Answer, version: nat, met: Met, older: nat)
    requires GoesBy(m, a, version, met) && NotInHand(m, a)
    ensures GoesBy(m, a, version, Met(Some(Desired(version, [GONE], [])), {}, [], [Doomed(older)]))
  {
    var view := Desired(version, [GONE], []);
    assert !WantsAgain(view, {});
  }

  lemma MayActOnOlderIfNotHeld(m: Memory, a: Answer, version: nat, met: Met, plain: bool)
    requires GoesBy(m, a, version, met) && NotInHand(m, a)
    requires if plain then version > 1 && !m.head.armed else version > 0
    ensures MayActOnOlder(m, a, version, plain)
  {
    var older := if plain then 1 else 0;
    AnyViewWillDo(m, a, version, met, older);
    var used := Met(Some(Desired(version, [GONE], [])), {}, [], [Doomed(older)]);
    ADestroyOnAnOlderView(Taken(m, a, used.again, used.torn).0, version, older);
    assert plain ==> IsPlain(TraceOf(m, a, version, used).asks[0]);
  }

  /** **When an act can be on a view older than the pass's own**: exactly when the
      pass acts, was told `unchanged` with nothing in hand, and its view is not of
      revision zero. Where Core names no restore and every view carries its
      revision, that takes an agent whose restore detection is not armed too. */
  lemma WhenAnActMayBeOnAnOlderView(m: Memory, a: Answer, version: nat)
    ensures MayActOnOlder(m, a, version, false) <==>
              (exists met :: GoesBy(m, a, version, met)) && NotInHand(m, a) && version > 0
    ensures MayActOnOlder(m, a, version, true) <==>
              (exists met :: GoesBy(m, a, version, met)) && NotInHand(m, a) && version > 1 && !m.head.armed
  {
    if met :| GoesBy(m, a, version, met) {
      if NotInHand(m, a) && version > 0 {
        MayActOnOlderIfNotHeld(m, a, version, met, false);
      }
      if NotInHand(m, a) && version > 1 && !m.head.armed {
        MayActOnOlderIfNotHeld(m, a, version, met, true);
      }
    }
    if MayActOnOlder(m, a, version, false) {
      OnlyIfNotHeld(m, a, version);
    }
    if MayActOnOlder(m, a, version, true) {
      OnlyIfNotHeld(m, a, version);
      var met :| GoesBy(m, a, version, met)
        && ActsOnOlder(Taken(m, a, met.again, met.torn).0, TraceOf(m, a, version, met), version)
        && forall k :: 0 <= k < |TraceOf(m, a, version, met).asks| ==> IsPlain(TraceOf(m, a, version, met).asks[k]);
      OlderTakes(m, a, version, met);
    }
  }

  lemma OnlyIfNotHeld(m: Memory, a: Answer, version: nat)
    requires MayActOnOlder(m, a, version, false) || MayActOnOlder(m, a, version, true)
    ensures (exists met :: GoesBy(m, a, version, met)) && NotInHand(m, a) && version > 0
  {
    var met :| GoesBy(m, a, version, met) && ActsOnOlder(Taken(m, a, met.again, met.torn).0, TraceOf(m, a, version, met), version);
    if !NotInHand(m, a) {
      NoActOnAnOlderViewThanThePasses(m, a, version, met);
    }
  }

  const UNARMED := Head(false, 0, None)

  /** **Nothing in hand, told nothing changed, and not armed**: the view asked for
      again in full is acted on and not held, so an older one, read before the
      act, licenses it. */
  lemma AViewNotHeldBoundsNothing() returns (a: Answer, again: Desired, it: Item)
    ensures a.Answer? && a.same && IsPlain(a) && it.first.Answer? && IsPlain(it.first)
    ensures Taken(Memory(None, [], UNARMED), a, Some(again), {}) == (Memory(None, [], UNARMED), Some(again))
    ensures |again.instances| == 1 && |again.workers| == 0
    ensures var t := Run(Memory(None, [], UNARMED), again, [], [it]).1.trace;
            && t.acts == [Act(Destroy, M, 1)] && t.asks == [it.first]
            && it.first.view.version < again.version
            && ActsOnOlder(Memory(None, [], UNARMED), t, again.version)
  {
    a := Answer(true, Desired(0, [], []), None, true);
    again := Desired(5, [GONE], []);
    it := Doomed(1);
    ADestroyOnAnOlderView(Memory(None, [], UNARMED), 5, 1);
  }

  /** **A worker just built is started whatever its destination**: on its
      build's re-read, with no second one. That start is licensed as a start
      exactly when the same answer names it Running. */
  lemma ABuiltWorkerIsStarted(t: Trace, spec: InstanceSpec, s: Sight, a: Answer)
    requires s.Nowhere? && s.places && s.made && s.ready && s.starts && SaysWanted(Says(t.memory, a, spec.id))
    ensures var acts := WorkerCreated(t, spec, s, a, Some(false)).trace.acts;
            acts == t.acts + [Act(Build, spec.id, |t.asks| + 1), Act(StartBuilt, spec.id, |t.asks| + 1)]
    ensures Licenses(Start, Says(t.memory, a, spec.id)) <==> Says(t.memory, a, spec.id).value.0 != Stopped
  {
  }

  lemma AStoppedWorkerIsStarted() returns (m: Memory, view: Desired, it: Item)
    ensures m == Memory(None, [], Head(true, 0, None))
    ensures |view.workers| == 1 && view.workers[0] == InstanceSpec(M, Stopped, false) && view.instances == []
    ensures Act(StartBuilt, M, 1) in Run(Taken(m, Answer(false, view, None, true), None, {}).0, view, [it], []).1.trace.acts
  {
    var spec := InstanceSpec(M, Stopped, false);
    m := Memory(None, [], Head(true, 0, None));
    view := Desired(1, [], [spec]);
    var a := Answer(false, view, None, true);
    it := Item(false, true, Blocked, Nowhere(true, true, true, true, true), a, NoAnswer);
    var start := Memory(Some(view), [(1, {})], Head(true, 1, None));
    assert BuiltWorkers(view) == {};
    assert Heard([], view) == [(1, {})];
    assert !WantsAgain(view, {});
    assert Taken(m, a, None, {}).0 == start;
    assert Says(start, a, M) == Some((Stopped, false));
    var t := Trace(start, [], []);
    ABuiltWorkerIsStarted(t, spec, it.sight, a);
    var w := Looped(t, Some(1), view.workers, [it], 1).trace;
    assert Looped(t, Some(1), view.workers, [it], 0) == Loop(t, []);
    assert w == OfWorker(t, 1, spec, it).trace;
    assert w.acts[1] == Act(StartBuilt, M, 1);
    assert Looped(w, None, view.instances, [], 0).trace == w;
  }
}
