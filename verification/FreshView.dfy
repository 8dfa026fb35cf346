/**
 Core's view, read again just before an act (`src/agent.rs:4549-4615`): what
 the agent holds between answers, and what one fresh answer says of an id.
 */
module FreshView {
  import opened Wrappers
  import opened Wire
  import opened RestoreHead

  datatype Desired = Desired(version: nat, instances: seq<InstanceSpec>, workers: seq<InstanceSpec>)

  /** What asking for the view comes to: `same` is Core's `unchanged`, `named` the
      restore Core names with it, and `spoken` whether this build speaks the
      protocol it is in. */
  datatype Answer = NoAnswer | Answer(same: bool, view: Desired, named: Option<string>, spoken: bool)

  /** The view in hand, the workers the last few full answers sent as built, and
      the restore head. */
  datatype Memory = Memory(held: Option<Desired>, built: seq<(nat, set<string>)>, head: Head)

  const BUILT_VIEWS_KEPT: nat := 8

  function Known(m: Memory): nat {
    if m.held.Some? then m.held.value.version else 0
  }

  // ---- The workers sent as built ----

  function BuiltWorkers(view: Desired): set<string> {
    set i | 0 <= i < |view.workers| && view.workers[i].built :: view.workers[i].id
  }

  function Without(kept: seq<(nat, set<string>)>, version: nat): (r: seq<(nat, set<string>)>)
    ensures forall i :: 0 <= i < |r| ==> r[i].0 != version && r[i] in kept
  {
    if kept == [] then []
    else if kept[0].0 == version then Without(kept[1..], version)
    else [kept[0]] + Without(kept[1..], version)
  }

  function Heard(kept: seq<(nat, set<string>)>, view: Desired): seq<(nat, set<string>)> {
    var all := Without(kept, view.version) + [(view.version, BuiltWorkers(view))];
    if |all| > BUILT_VIEWS_KEPT then all[|all| - BUILT_VIEWS_KEPT..] else all
  }

  /** `None` when that view's answer is not held. */
  function BuiltIn(kept: seq<(nat, set<string>)>, version: nat, id: string): Option<bool> {
    if kept == [] then None
    else
      var last := kept[|kept| - 1];
      if last.0 == version then Some(id in last.1) else BuiltIn(kept[..|kept| - 1], version, id)
  }

  // ---- One answer ----

  /** The head once the answer was read against it; what was torn down here is
      the pass's to read. */
  function HeadAfter(h: Head, a: Answer): Head
    requires a.Answer?
  {
    Observed(h, a.same, a.view.version, false, a.named)
  }

  /** The answer names a view this agent may act on. */
  predicate Usable(m: Memory, a: Answer) {
    && a.Answer? && !InRestore(HeadAfter(m.head, a))
    && if a.same then m.held.Some? else a.view.version >= Known(m)
  }

  function After(m: Memory, a: Answer): Memory {
    if a.NoAnswer? then m
    else if a.same then m.(head := HeadAfter(m.head, a))
    else Memory(if Usable(m, a) then Some(a.view) else m.held, Heard(m.built, a.view), HeadAfter(m.head, a))
  }

  function Find(specs: seq<InstanceSpec>, id: string): (r: Option<InstanceSpec>)
    ensures r.Some? <==> Names(specs, id)
    ensures r.Some? ==> exists i :: 0 <= i < |specs| && specs[i] == r.value && specs[i].id == id && NotBefore(specs, id, i)
  {
    if specs == [] then None
    else if specs[0].id == id then Some(specs[0])
    else
      assert forall i :: 0 <= i < |specs[1..]| ==> specs[1..][i] == specs[i + 1];
      var r := Find(specs[1..], id);
      assert r.Some? ==> forall i :: 0 <= i < |specs[1..]| && NotBefore(specs[1..], id, i) ==> NotBefore(specs, id, i + 1);
      r
  }

  /** No spec before `i` is of that id. */
  ghost predicate NotBefore(specs: seq<InstanceSpec>, id: string, i: nat)
    requires i <= |specs|
  {
    forall k :: 0 <= k < i ==> specs[k].id != id
  }

  /** What a view says of `id`: its intent, and whether Core has seen it built. */
  function Sees(m: Memory, view: Desired, id: string): Option<(Lifecycle, bool)> {
    match Find(view.instances, id)
    case Some(spec) => Some((spec.intent, spec.built))
    case None =>
      match Find(view.workers, id)
      case Some(spec) =>
        var built := BuiltIn(m.built, view.version, id);
        Some((spec.intent, built == Some(true) || built == None))
      case None => None
  }

  /** What a fresh answer says of `id`, or nothing. */
  function Says(m: Memory, a: Answer, id: string): Option<(Lifecycle, bool)> {
    if Usable(m, a) then Sees(After(m, a), After(m, a).held.value, id) else None
  }

  function Asked(m: Memory, asks: seq<Answer>): Memory {
    if asks == [] then m else After(Asked(m, asks[..|asks| - 1]), asks[|asks| - 1])
  }

  class Reader {
    var memory: Memory
    var asks: seq<Answer>       // every re-read so far, answered or not

    constructor (m: Memory)
      ensures memory == m && asks == []
    {
      memory, asks := m, [];
    }

    /** Asks Core for its view again; `Err` when it could not be asked. */
    method SeenNow(a: Answer, id: string) returns (r: Result<Option<(Lifecycle, bool)>, ()>)
      modifies this
      ensures memory == After(old(memory), a) && asks == old(asks) + [a]
      ensures r == if a.NoAnswer? then Err(()) else Ok(Says(old(memory), a, id))
    {
      var known := Known(memory);
      asks := asks + [a];
      if a.NoAnswer? {
        return Err(());
      }
      if !a.same {
        memory := memory.(built := Heard(memory.built, a.view));
      }
      memory := memory.(head := HeadAfter(memory.head, a));
      if InRestore(memory.head) {
        return Ok(None);
      }
      var view;
      if a.same {
        if memory.held.None? {
          return Ok(None);
        }
        view := memory.held.value;
      } else if a.view.version < known {
        return Ok(None);
      } else {
        memory := memory.(held := Some(a.view));
        view := a.view;
      }
      return Ok(Sees(memory, view, id));
    }
  }

  // ---- What one answer is worth ----

  /** The view an answer offers: its own, or the one in hand. */
  function Offered(m: Memory, a: Answer): Option<Desired> {
    if a.NoAnswer? then None else if a.same then m.held else Some(a.view)
  }

  /** **When an answer says something of an id**: exactly when it offers a view, that
      leaves the agent in no restore, is not below the one in hand, and names the
      id. The view in hand is then the one offered, and else what it was. */
  lemma WhenSomethingIsSaid(m: Memory, a: Answer, id: string)
    ensures var taken := Offered(m, a).Some? && !InRestore(After(m, a).head) && Known(m) <= Offered(m, a).value.version;
            && After(m, a).held == (if taken then Offered(m, a) else m.held)
            && (Says(m, a, id).Some? <==>
                  taken && (Names(Offered(m, a).value.instances, id) || Names(Offered(m, a).value.workers, id)))
  {
  }

  /** **An answer naming a restore says nothing**, and nor does a view below the head;
      both leave the agent in the restore. */
  lemma NothingIsSaidInARestore(m: Memory, a: Answer, id: string)
    requires a.Answer? && m.head.armed
    requires a.named.Some? || (m.head.mode.None? && !a.same && 0 < a.view.version < m.head.revision)
    ensures Says(m, a, id) == None && InRestore(After(m, a).head) && After(m, a).held == m.held
  {
    WhenARestoreHolds(m.head, a.same, a.view.version, false, a.named);
  }

  /** The first spec of that id, in order. */
  ghost predicate IsFirst(specs: seq<InstanceSpec>, id: string, i: nat) {
    i < |specs| && specs[i].id == id && NotBefore(specs, id, i)
  }

  /** **An instance's word is its view's**: the first of that id says both what is
      wanted of it and whether it was seen built. */
  lemma AnInstancesWordIsItsViews(m: Memory, a: Answer, id: string, i: nat)
    requires Usable(m, a) && IsFirst(Offered(m, a).value.instances, id, i)
    ensures Says(m, a, id) == Some((Offered(m, a).value.instances[i].intent, Offered(m, a).value.instances[i].built))
  {
    var specs := Offered(m, a).value.instances;
    assert Names(specs, id);
    var k :| 0 <= k < |specs| && specs[k] == Find(specs, id).value && specs[k].id == id && NotBefore(specs, id, k);
    OnlyOneIsFirst(specs, id, i, k);
  }

  lemma OnlyOneIsFirst(specs: seq<InstanceSpec>, id: string, i: nat, k: nat)
    requires IsFirst(specs, id, i) && IsFirst(specs, id, k)
    ensures i == k
  {
  }

  /** The answers kept are the last eight of different views, the newest last. */
  lemma TheLastEightAreKept(kept: seq<(nat, set<string>)>, view: Desired)
    ensures var now, others := Heard(kept, view), Without(kept, view.version);
            && |now| == (if |others| < BUILT_VIEWS_KEPT then |others| + 1 else BUILT_VIEWS_KEPT)
            && now[|now| - 1] == (view.version, BuiltWorkers(view))
            && now[..|now| - 1] == others[|others| - (|now| - 1)..]
  {
    var others := Without(kept, view.version);
    var all := others + [(view.version, BuiltWorkers(view))];
    var now := Heard(kept, view);
    var k := |all| - |now|;
    assert now == all[k..];
    assert forall i :: 0 <= i < |now| - 1 ==> now[i] == others[k + i];
  }

  lemma {:induction false} WithoutIsTheRest(kept: seq<(nat, set<string>)>, version: nat)
    ensures forall e :: e in Without(kept, version) <==> e in kept && e.0 != version
    ensures |Without(kept, version)| <= |kept|
    ensures (forall i :: 0 <= i < |kept| ==> kept[i].0 != version) ==> Without(kept, version) == kept
  {
    if kept != [] {
      WithoutIsTheRest(kept[1..], version);
      assert kept == [kept[0]] + kept[1..];
    }
  }

  // ---- What any run of re-reads keeps ----

  /** **The view in hand never goes back.** */
  lemma {:induction false} NeverBack(m: Memory, asks: seq<Answer>, k: nat)
    requires k <= |asks|
    ensures Known(Asked(m, asks[..k])) <= Known(Asked(m, asks))
    ensures m.held.Some? ==> Asked(m, asks).held.Some?
    decreases |asks|
  {
    if asks != [] {
      var init := asks[..|asks| - 1];
      if k < |asks| {
        NeverBack(m, init, k);
        assert init[..k] == asks[..k];
      } else {
        NeverBack(m, init, 0);
        assert asks[..k] == asks;
      }
    }
  }

  lemma {:induction false} BuiltAppended(kept: seq<(nat, set<string>)>, entry: (nat, set<string>), version: nat, id: string)
    ensures BuiltIn(kept + [entry], version, id) == if entry.0 == version then Some(id in entry.1) else BuiltIn(kept, version, id)
  {
    assert (kept + [entry])[..|kept|] == kept;
  }

  /** **A full answer's own word on a worker is the one read**: what its view
      says built is what the next look at that view finds. */
  lemma AWorkersWordIsItsViews(m: Memory, a: Answer, id: string)
    requires Usable(m, a) && !a.same && !Names(a.view.instances, id)
    ensures Says(m, a, id).Some? <==> Names(a.view.workers, id)
    ensures Says(m, a, id).Some? ==>
              && (exists i :: 0 <= i < |a.view.workers| && a.view.workers[i].id == id
                              && a.view.workers[i].intent == Says(m, a, id).value.0)
              && (Says(m, a, id).value.1 <==>
                    exists i :: 0 <= i < |a.view.workers| && a.view.workers[i].id == id && a.view.workers[i].built)
  {
    var all := Without(m.built, a.view.version) + [(a.view.version, BuiltWorkers(a.view))];
    var kept := Heard(m.built, a.view);
    assert kept == kept[..|kept| - 1] + [(a.view.version, BuiltWorkers(a.view))];
    BuiltAppended(kept[..|kept| - 1], (a.view.version, BuiltWorkers(a.view)), a.view.version, id);
    var found := Find(a.view.workers, id);
    if found.Some? {
      var i :| 0 <= i < |a.view.workers| && a.view.workers[i] == found.value;
    }
  }

  /** **Held no longer, so not built on**: a worker whose view's answer is not
      kept reads as built. */
  lemma WhatIsNotKeptReadsAsBuilt(m: Memory, a: Answer, id: string)
    requires Usable(m, a) && !Names(After(m, a).held.value.instances, id)
    requires forall i :: 0 <= i < |After(m, a).built| ==> After(m, a).built[i].0 != After(m, a).held.value.version
    ensures Says(m, a, id).Some? ==> Says(m, a, id).value.1
  {
    NotKept(After(m, a).built, After(m, a).held.value.version, id);
  }

  lemma {:induction false} NotKept(kept: seq<(nat, set<string>)>, version: nat, id: string)
    requires forall i :: 0 <= i < |kept| ==> kept[i].0 != version
    ensures BuiltIn(kept, version, id) == None
  {
    if kept != [] {
      NotKept(kept[..|kept| - 1], version, id);
    }
  }
}
