/**
 One pass over Core's view (`src/agent.rs:3830-3930, 3994-4340, 4427-4446`):
 the view taken, each worker and each instance looked at and acted on, what is
 reported of it, and whether the report covers everything it was asked about.
 What the hypervisor answers is `Item`; every act waits for a fresh view.
 */
module Reconcile {
  import opened Wrappers
  import opened Wire
  import opened RestoreHead
  import opened FreshView

  datatype State = Up | Down | Errored

  /** A claimed guest a delete found, or why it found none. */
  datatype Doomed = Blocked | NothingClaimed | Guest(sound: bool)

  /** What looking for a machine finds. `steady`: the steps before its power is
      converged went through; `ready`: what its start waits for comes in time;
      `sound`: the start and the steps after it went through. A create that fails
      is rolled back; `takes`: that gets as far as asking for the destroy. */
  datatype Sight =
    | Fails                                            // a step of the agent's failed
    | CantLook                                         // nobody would say
    | Unsettled(state: State)                          // none claimed, and something owed or stamped
    | Standing(running: bool, steady: bool, ready: bool, sound: bool)
    | Nowhere(places: bool, made: bool, ready: bool, starts: bool, takes: bool)

  /** One desired item's answers: an earlier teardown of its id, its image
      offered here, what is found, and what Core answers when asked again. */
  datatype Item = Item(torn: bool, offered: bool, doomed: Doomed, sight: Sight, first: Answer, second: Answer)

  /** `TakeBack` is a rollback's destroy of what the create itself made. */
  datatype Kind = Build | Start | StartBuilt | Destroy | TakeBack

  /** An act asked of the hypervisor, after that many re-reads of the pass. */
  datatype Act = Act(kind: Kind, id: string, asked: nat)

  /** How one item ended. `Unread`: a destination this build does not know. */
  datatype End = Told(state: State) | SeenThenFailed(state: State) | NotLooked | Failed | Unread

  /** What the agent holds, asked and did, since the pass took its view. */
  datatype Trace = Trace(memory: Memory, asks: seq<Answer>, acts: seq<Act>)

  datatype Ended = Ended(trace: Trace, end: End)

  function Asking(t: Trace, a: Answer): Trace {
    Trace(After(t.memory, a), t.asks + [a], t.acts)
  }

  function Acting(t: Trace, kind: Kind, id: string): Trace {
    t.(acts := t.acts + [Act(kind, id, |t.asks|)])
  }

  // ---- The three questions ----

  predicate SaysAbsent(says: Option<(Lifecycle, bool)>) {
    says.Some? && says.value.0 == Absent
  }

  predicate SaysRunning(says: Option<(Lifecycle, bool)>) {
    says.Some? && says.value.0 == Running
  }

  predicate SaysWanted(says: Option<(Lifecycle, bool)>) {
    says.Some? && (says.value.0 == Running || says.value.0 == Stopped) && !says.value.1
  }

  // ---- One item ----

  /** A delete, of a worker or a machine alike. */
  function Deleted(t: Trace, id: string, it: Item): Ended {
    match it.doomed
    case Blocked => Ended(t, Failed)
    case NothingClaimed => Ended(t, Told(Down))
    case Guest(sound) =>
      if SaysAbsent(Says(t.memory, it.first, id))
      then Ended(Acting(Asking(t, it.first), Destroy, id), if sound then Told(Down) else Failed)
      else Ended(Asking(t, it.first), Failed)
  }

  /** A standing machine's power, converged on the answer `a` if it is to start. A
      start whose gate does not open is told as held, or, a worker's, fails. */
  function Converged(t: Trace, spec: InstanceSpec, s: Sight, a: Answer, worker: bool, failed: End): Ended
    requires s.Standing?
  {
    if !s.steady then Ended(t, failed)
    else if spec.intent == Running && !s.running then
      if !SaysRunning(Says(t.memory, a, spec.id)) then Ended(Asking(t, a), if s.sound then Told(Down) else failed)
      else if !s.ready then Ended(Asking(t, a), if s.sound && !worker then Told(Down) else failed)
      else Ended(Acting(Asking(t, a), Start, spec.id), if s.sound then Told(Up) else failed)
    else Ended(t, if !s.sound then failed else if spec.intent == Running then Told(Up) else Told(Down))
  }

  /** A create that failed, rolled back. */
  function RolledBack(t: Trace, spec: InstanceSpec, s: Sight): Ended
    requires s.Nowhere?
  {
    Ended(if s.takes then Acting(t, TakeBack, spec.id) else t, Failed)
  }

  function Created(t: Trace, spec: InstanceSpec, s: Sight, a: Answer): Ended
    requires s.Nowhere?
  {
    if !s.places then Ended(t, Failed)
    else
      var built := Acting(t, Build, spec.id);
      if !s.made then RolledBack(built, spec, s)
      else if spec.intent != Running then Ended(built, Told(Down))
      else if !SaysRunning(Says(t.memory, a, spec.id)) then Ended(Asking(built, a), Told(Down))
      else if !s.ready then RolledBack(Asking(built, a), spec, s)
      else
        var started := Acting(Asking(built, a), Start, spec.id);
        if s.starts then Ended(started, Told(Up)) else RolledBack(started, spec, s)
  }

  function Ensured(t: Trace, spec: InstanceSpec, it: Item): Ended {
    match it.sight
    case Fails => Ended(t, Failed)
    case CantLook => Ended(t, NotLooked)
    case Unsettled(state) => Ended(t, Told(state))
    case Standing(running, _, _, _) => Converged(t, spec, it.sight, it.second, false, SeenThenFailed(if running then Up else Down))
    case Nowhere(_, _, _, _, _) => if spec.built then Ended(t, Told(Errored)) else Created(t, spec, it.sight, it.second)
  }

  function OfInstance(t: Trace, spec: InstanceSpec, it: Item): Ended {
    if spec.intent == Unknown then Ended(t, Unread)
    else if spec.intent == Absent then Deleted(t, spec.id, it)
    else if it.torn then Ended(t, Failed)
    else if !spec.built && !SaysWanted(Says(t.memory, it.first, spec.id)) then Ended(Asking(t, it.first), NotLooked)
    else
      var read := if spec.built then t else Asking(t, it.first);
      if it.offered then Ensured(read, spec, it) else Ended(read, Failed)
  }

  /** A worker sent as built is lost; one not sent built is built on a fresh
      view, and started on that same view; one not known is not looked at. */
  function WorkerCreated(t: Trace, spec: InstanceSpec, s: Sight, a: Answer, built: Option<bool>): Ended
    requires s.Nowhere?
  {
    match built
    case None => Ended(t, NotLooked)
    case Some(true) => Ended(t, Told(Errored))
    case Some(false) =>
      var read := Asking(t, a);
      if !SaysWanted(Says(t.memory, a, spec.id)) then Ended(read, NotLooked)
      else if !s.places then Ended(read, Failed)
      else
        var made := Acting(read, Build, spec.id);
        if !s.made || !s.ready then RolledBack(made, spec, s)
        else
          var started := Acting(made, StartBuilt, spec.id);
          if s.starts then Ended(started, Told(Up)) else RolledBack(started, spec, s)
  }

  function OfWorker(t: Trace, version: nat, spec: InstanceSpec, it: Item): Ended {
    if spec.intent == Unknown then Ended(t, Unread)
    else if spec.intent == Absent then Deleted(t, spec.id, it)
    else if it.torn then Ended(t, Failed)
    else
      match it.sight
      case Fails => Ended(t, Failed)
      case CantLook => Ended(t, NotLooked)
      case Unsettled(state) => Ended(t, Told(state))
      case Standing(_, _, _, _) => Converged(t, spec, it.sight, it.first, true, Failed)
      case Nowhere(_, _, _, _, _) => WorkerCreated(t, spec, it.sight, it.first, BuiltIn(t.memory.built, version, spec.id))
  }

  /** `version` is the view's for a worker, and nothing for an instance. */
  function Of(t: Trace, version: Option<nat>, spec: InstanceSpec, it: Item): Ended {
    if version.Some? then OfWorker(t, version.value, spec, it) else OfInstance(t, spec, it)
  }

  // ---- A loop over them ----

  datatype Loop = Loop(trace: Trace, ends: seq<End>)

  /** The first `k` items, each on what the one before left. */
  function Looped(t: Trace, version: Option<nat>, specs: seq<InstanceSpec>, items: seq<Item>, k: nat): (l: Loop)
    requires k <= |specs| == |items|
    ensures |l.ends| == k
  {
    if k == 0 then Loop(t, [])
    else
      var before := Looped(t, version, specs, items, k - 1);
      var e := Of(before.trace, version, specs[k - 1], items[k - 1]);
      Loop(e.trace, before.ends + [e.end])
  }

  // ---- What is reported ----

  datatype Status = Status(id: string, state: State)

  /** What one item's end puts in the report: one status, or none. */
  function Said(id: string, end: End): seq<Status> {
    match end
    case Told(state) => [Status(id, state)]
    case SeenThenFailed(state) => [Status(id, state)]
    case Failed => [Status(id, Errored)]
    case NotLooked => []
    case Unread => []
  }

  /** The statuses of the first `k` items. */
  function Reported(specs: seq<InstanceSpec>, ends: seq<End>, k: nat): seq<Status>
    requires k <= |ends| <= |specs|
  {
    if k == 0 then [] else Reported(specs, ends, k - 1) + Said(specs[k - 1].id, ends[k - 1])
  }

  /** The agent could neither look nor act, or could not read what was wanted. */
  predicate Unobserved(end: End) {
    end.NotLooked? || end.Failed? || end.Unread?
  }

  /** How many of the first `k` items. */
  function Count(ends: seq<End>, k: nat): nat
    requires k <= |ends|
  {
    if k == 0 then 0 else Count(ends, k - 1) + if Unobserved(ends[k - 1]) then 1 else 0
  }

  lemma {:induction false} OneMore(specs: seq<InstanceSpec>, ends: seq<End>, end: End, k: nat)
    requires k <= |ends| < |specs|
    ensures Reported(specs, ends + [end], k) == Reported(specs, ends, k)
    ensures Count(ends + [end], k) == Count(ends, k)
  {
    if k > 0 {
      OneMore(specs, ends, end, k - 1);
    }
  }

  /** What was not looked at is left out and counted; a failure is reported as
      an error and counted. */
  method Tell(statuses: seq<Status>, unobserved: nat, id: string, end: End) returns (told: seq<Status>, count: nat)
    ensures told == statuses + Said(id, end)
    ensures count == unobserved + if Unobserved(end) then 1 else 0
  {
    told, count := statuses, unobserved;
    if end.NotLooked? || end.Unread? {
      return told, count + 1;
    }
    match end
    case Told(state) => told := told + [Status(id, state)];
    case SeenThenFailed(state) => told := told + [Status(id, state)];
    case Failed =>
      count := count + 1;
      told := told + [Status(id, Errored)];
  }

  /** The statuses and the count of every item that has ended. */
  ghost predicate IsTold(specs: seq<InstanceSpec>, ends: seq<End>, statuses: seq<Status>, unobserved: nat) {
    |ends| <= |specs| && statuses == Reported(specs, ends, |ends|) && unobserved == Count(ends, |ends|)
  }

  lemma OneMoreTold(specs: seq<InstanceSpec>, ends: seq<End>, end: End, statuses: seq<Status>, unobserved: nat, told: seq<Status>, count: nat)
    requires |ends| < |specs| && IsTold(specs, ends, statuses, unobserved)
    requires told == statuses + Said(specs[|ends|].id, end) && count == unobserved + if Unobserved(end) then 1 else 0
    ensures IsTold(specs, ends + [end], told, count)
  {
    OneMore(specs, ends, end, |ends|);
  }

  datatype Because = Instances(n: nat, of: nat) | Workers(n: nat, of: nat) | Restoring

  method Incompleteness(unobservedInstances: nat, instances: nat, unobservedWorkers: nat, workers: nat)
    returns (out: seq<Because>)
    ensures out == [] <==> unobservedInstances == 0 && unobservedWorkers == 0
    ensures Instances(unobservedInstances, instances) in out <==> unobservedInstances > 0
    ensures Workers(unobservedWorkers, workers) in out <==> unobservedWorkers > 0
  {
    out := [];
    if unobservedInstances > 0 {
      out := out + [Instances(unobservedInstances, instances)];
    }
    if unobservedWorkers > 0 {
      out := out + [Workers(unobservedWorkers, workers)];
    }
  }

  // ---- The pass ----

  /** The view wants an attempt torn down here. */
  predicate WantsAgain(view: Desired, torn: set<string>) {
    || (exists i :: 0 <= i < |view.instances| && view.instances[i].intent != Absent && view.instances[i].id in torn)
    || exists i :: 0 <= i < |view.workers| && view.workers[i].intent != Absent && view.workers[i].id in torn
  }

  /** What the pass's own asking leaves in hand, and the view it goes by: that
      of the answer, or the one in hand, or one asked for again in full. None in
      a protocol this build does not speak; and the one there is, read against
      the head. */
  function Taken(m: Memory, a: Answer, again: Option<Desired>, torn: set<string>): (Memory, Option<Desired>) {
    if a.NoAnswer? then (m, None)
    else
      var heard := if a.same then m else m.(built := Heard(m.built, a.view));
      var view := if !a.same then Some(a.view) else if m.held.Some? then m.held else again;
      if !a.spoken || view.None? then (heard, None)
      else
        (Memory(if a.same then m.held else view, heard.built,
                Observed(m.head, false, view.value.version, WantsAgain(view.value, torn), a.named)), view)
  }

  /** The workers, then the instances. */
  function Run(m: Memory, view: Desired, workerItems: seq<Item>, items: seq<Item>): (Loop, Loop)
    requires |workerItems| == |view.workers| && |items| == |view.instances|
  {
    var workers := Looped(Trace(m, [], []), Some(view.version), view.workers, workerItems, |view.workers|);
    (workers, Looped(workers.trace, None, view.instances, items, |view.instances|))
  }

  datatype Report = Report(workers: seq<Status>, instances: seq<Status>, because: seq<Because>, revision: nat)

  class Agent {
    const reader: Reader
    var acts: seq<Act>

    constructor (m: Memory)
      ensures fresh(reader) && Now() == Trace(m, [], [])
    {
      reader := new Reader(m);
      acts := [];
    }

    function Now(): Trace
      reads this, reader
    {
      Trace(reader.memory, reader.asks, acts)
    }

    method Do(kind: Kind, id: string)
      modifies this
      ensures Now() == Acting(old(Now()), kind, id)
    {
      acts := acts + [Act(kind, id, |reader.asks|)];
    }

    method Delete(id: string, it: Item) returns (end: End)
      modifies this, reader
      ensures Ended(Now(), end) == Deleted(old(Now()), id, it)
    {
      match it.doomed
      case Blocked => end := Failed;
      case NothingClaimed => end := Told(Down);
      case Guest(sound) =>
        var says := reader.SeenNow(it.first, id);
        if says.Ok? && SaysAbsent(says.value) {
          Do(Destroy, id);
          end := if sound then Told(Down) else Failed;
        } else {
          end := Failed;
        }
    }

    method Converge(spec: InstanceSpec, s: Sight, a: Answer, worker: bool, failed: End) returns (end: End)
      requires s.Standing?
      modifies this, reader
      ensures Ended(Now(), end) == Converged(old(Now()), spec, s, a, worker, failed)
    {
      if !s.steady {
        return failed;
      }
      var running := s.running;
      if spec.intent == Running && !running {
        var says := reader.SeenNow(a, spec.id);
        if says.Ok? && SaysRunning(says.value) {
          if s.ready {
            Do(Start, spec.id);
            running := true;
          } else if worker {
            return failed;
          }
        }
      } else if spec.intent != Running {
        running := false;
      }
      end := if !s.sound then failed else if running then Told(Up) else Told(Down);
    }

    method Create(spec: InstanceSpec, s: Sight, a: Answer) returns (end: End)
      requires s.Nowhere?
      modifies this, reader
      ensures Ended(Now(), end) == Created(old(Now()), spec, s, a)
    {
      if !s.places {
        return Failed;
      }
      Do(Build, spec.id);
      if !s.made {
        end := RollBack(spec, s);
        return;
      }
      if spec.intent != Running {
        return Told(Down);
      }
      var says := reader.SeenNow(a, spec.id);
      if !(says.Ok? && SaysRunning(says.value)) {
        return Told(Down);
      }
      if s.ready {
        Do(Start, spec.id);
        if s.starts {
          return Told(Up);
        }
      }
      end := RollBack(spec, s);
    }

    method RollBack(spec: InstanceSpec, s: Sight) returns (end: End)
      requires s.Nowhere?
      modifies this
      ensures Ended(Now(), end) == RolledBack(old(Now()), spec, s)
    {
      if s.takes {
        Do(TakeBack, spec.id);
      }
      end := Failed;
    }

    method Instance(spec: InstanceSpec, it: Item) returns (end: End)
      modifies this, reader
      ensures Ended(Now(), end) == OfInstance(old(Now()), spec, it)
    {
      if spec.intent == Unknown {
        return Unread;
      }
      if spec.intent == Absent {
        end := Delete(spec.id, it);
        return;
      }
      if it.torn {
        return Failed;
      }
      if !spec.built {
        var says := reader.SeenNow(it.first, spec.id);
        if !(says.Ok? && SaysWanted(says.value)) {
          return NotLooked;
        }
      }
      if !it.offered {
        return Failed;
      }
      match it.sight
      case Fails => end := Failed;
      case CantLook => end := NotLooked;
      case Unsettled(state) => end := Told(state);
      case Standing(running, _, _, _) => end := Converge(spec, it.sight, it.second, false, SeenThenFailed(if running then Up else Down));
      case Nowhere(_, _, _, _, _) =>
        if spec.built {
          end := Told(Errored);
        } else {
          end := Create(spec, it.sight, it.second);
        }
    }

    method Worker(version: nat, spec: InstanceSpec, it: Item) returns (end: End)
      modifies this, reader
      ensures Ended(Now(), end) == OfWorker(old(Now()), version, spec, it)
    {
      if spec.intent == Unknown {
        return Unread;
      }
      if spec.intent == Absent {
        end := Delete(spec.id, it);
        return;
      }
      if it.torn {
        return Failed;
      }
      match it.sight
      case Fails => end := Failed;
      case CantLook => end := NotLooked;
      case Unsettled(state) => end := Told(state);
      case Standing(_, _, _, _) => end := Converge(spec, it.sight, it.first, true, Failed);
      case Nowhere(_, _, _, _, _) => end := CreateWorker(version, spec, it);
    }

    method CreateWorker(version: nat, spec: InstanceSpec, it: Item) returns (end: End)
      requires it.sight.Nowhere?
      modifies this, reader
      ensures Ended(Now(), end) ==
              WorkerCreated(old(Now()), spec, it.sight, it.first, BuiltIn(old(Now()).memory.built, version, spec.id))
    {
      var built := BuiltIn(reader.memory.built, version, spec.id);
      if built.None? {
        return NotLooked;
      }
      if built.value {
        return Told(Errored);
      }
      var says := reader.SeenNow(it.first, spec.id);
      if !(says.Ok? && SaysWanted(says.value)) {
        return NotLooked;
      }
      if !it.sight.places {
        return Failed;
      }
      Do(Build, spec.id);
      if it.sight.made && it.sight.ready {
        Do(StartBuilt, spec.id);
        if it.sight.starts {
          return Told(Up);
        }
      }
      end := RollBack(spec, it.sight);
    }

    method Look(version: Option<nat>, spec: InstanceSpec, it: Item) returns (end: End)
      modifies this, reader
      ensures Ended(Now(), end) == Of(old(Now()), version, spec, it)
    {
      if version.Some? {
        end := Worker(version.value, spec, it);
      } else {
        end := Instance(spec, it);
      }
    }

    /** One of the pass's two loops: every item's status, or its count. */
    method Each(version: Option<nat>, specs: seq<InstanceSpec>, items: seq<Item>)
      returns (statuses: seq<Status>, unobserved: nat)
      requires |specs| == |items|
      modifies this, reader
      ensures var l := Looped(old(Now()), version, specs, items, |specs|);
              && Now() == l.trace
              && statuses == Reported(specs, l.ends, |specs|) && unobserved == Count(l.ends, |specs|)
    {
      statuses, unobserved := [], 0;
      ghost var ends: seq<End> := [];
      var i := 0;
      while i < |specs|
        invariant 0 <= i <= |specs| && |ends| == i
        invariant Loop(Now(), ends) == Looped(old(Now()), version, specs, items, i)
        invariant IsTold(specs, ends, statuses, unobserved)
      {
        var end := Look(version, specs[i], items[i]);
        var told, count := Tell(statuses, unobserved, specs[i].id, end);
        OneMoreTold(specs, ends, end, statuses, unobserved, told, count);
        statuses, unobserved, ends := told, count, ends + [end];
        i := i + 1;
      }
    }

    /** The acting part of a pass, on the view it took. */
    method Pass(view: Desired, workerItems: seq<Item>, items: seq<Item>) returns (report: Report)
      requires |workerItems| == |view.workers| && |items| == |view.instances|
      requires reader.asks == [] && acts == []
      modifies this, reader
      ensures var run := Run(old(reader.memory), view, workerItems, items);
              && Now() == run.1.trace
              && report.workers == Reported(view.workers, run.0.ends, |view.workers|)
              && report.instances == Reported(view.instances, run.1.ends, |view.instances|)
              && (report.because == [] <==> Count(run.0.ends, |view.workers|) == 0 && Count(run.1.ends, |view.instances|) == 0)
              && report.revision == view.version
    {
      var workers, unobservedWorkers := Each(Some(view.version), view.workers, workerItems);
      var instances, unobservedInstances := Each(None, view.instances, items);
      var because := Incompleteness(unobservedInstances, |view.instances|, unobservedWorkers, |view.workers|);
      report := Report(workers, instances, because, view.version);
    }

    /** A whole pass: the view taken and read against the restore head, then the
        acting part. No view, no report; in a restore, a report of nothing. */
    method Reconcile(a: Answer, again: Option<Desired>, torn: set<string>, workerItems: seq<Item>, items: seq<Item>)
      returns (report: Option<Report>)
      requires reader.asks == [] && acts == []
      requires var view := Taken(reader.memory, a, again, torn).1;
               view.Some? ==> |workerItems| == |view.value.workers| && |items| == |view.value.instances|
      modifies this, reader
      ensures var (m, view) := Taken(old(reader.memory), a, again, torn);
              if view.None? then report == None && Now() == Trace(m, [], [])
              else if InRestore(m.head) then
                report == Some(Report([], [], [Restoring], view.value.version)) && Now() == Trace(m, [], [])
              else
                && Now() == Run(m, view.value, workerItems, items).1.trace
                && report.Some? && report.value.revision == view.value.version
      ensures a.Answer? && a.named.Some? && old(reader.memory).head.armed ==> acts == [] && reader.asks == []
    {
      if a.NoAnswer? {
        return None;
      }
      if !a.same {
        reader.memory := reader.memory.(built := Heard(reader.memory.built, a.view));
      }
      if !a.spoken {
        return None;
      }
      var view;
      if a.same {
        if reader.memory.held.Some? {
          view := reader.memory.held.value;
        } else if again.None? {
          return None;
        } else {
          view := again.value;
        }
      } else {
        reader.memory := reader.memory.(held := Some(a.view));
        view := a.view;
      }
      WhenARestoreHolds(reader.memory.head, false, view.version, WantsAgain(view, torn), a.named);
      reader.memory := reader.memory.(
        head := Observed(reader.memory.head, false, view.version, WantsAgain(view, torn), a.named));
      if InRestore(reader.memory.head) {
        return Some(Report([], [], [Restoring], view.version));
      }
      var did := Pass(view, workerItems, items);
      report := Some(did);
    }
  }

  // ---- Reported once, or counted ----

  lemma {:induction false} NothingCounted(ends: seq<End>, k: nat)
    requires k <= |ends|
    ensures Count(ends, k) == 0 <==> forall i :: 0 <= i < k ==> !Unobserved(ends[i])
  {
    if k > 0 {
      NothingCounted(ends, k - 1);
    }
  }

  lemma {:induction false} ReportedOrCounted(specs: seq<InstanceSpec>, ends: seq<End>, k: nat)
    requires k <= |ends| <= |specs|
    ensures |Reported(specs, ends, k)| <= k <= |Reported(specs, ends, k)| + Count(ends, k)
    ensures Count(ends, k) == 0 ==> AllSaid(specs, ends, Reported(specs, ends, k), k)
  {
    if k > 0 {
      ReportedOrCounted(specs, ends, k - 1);
    }
  }

  /** The item at `i` is told with that state. */
  ghost predicate IsTellingOf(end: End, state: State) {
    end == Told(state) || end == SeenThenFailed(state) || (end == Failed && state == Errored)
  }

  /** **What is reported**: a status is of an item told, seen before a failure, or
      failed, and that last as an error; and each such item has its own. */
  lemma {:induction false} WhatIsReported(specs: seq<InstanceSpec>, ends: seq<End>, k: nat, status: Status)
    requires k <= |ends| <= |specs|
    ensures status in Reported(specs, ends, k) <==>
            exists i :: 0 <= i < k && specs[i].id == status.id && IsTellingOf(ends[i], status.state)
  {
    if k > 0 {
      WhatIsReported(specs, ends, k - 1, status);
      assert status in Said(specs[k - 1].id, ends[k - 1]) <==>
             specs[k - 1].id == status.id && IsTellingOf(ends[k - 1], status.state);
    }
  }

  /** **What is counted**: each item left out, failed or not known, once. */
  lemma {:induction false} WhatIsCounted(ends: seq<End>, k: nat)
    requires k <= |ends|
    ensures Count(ends, k) == |set i | 0 <= i < k && (ends[i] == NotLooked || ends[i] == Failed || ends[i] == Unread)|
  {
    var all := set i | 0 <= i < k && (ends[i] == NotLooked || ends[i] == Failed || ends[i] == Unread);
    if k > 0 {
      WhatIsCounted(ends, k - 1);
      var before := set i | 0 <= i < k - 1 && (ends[i] == NotLooked || ends[i] == Failed || ends[i] == Unread);
      if k - 1 in all {
        assert all == before + {k - 1};
      } else {
        assert all == before;
      }
    } else {
      assert all == {};
    }
  }

  /** The `k` statuses are the `k` items', in order, each what was told or seen. */
  ghost predicate AllSaid(specs: seq<InstanceSpec>, ends: seq<End>, statuses: seq<Status>, k: nat)
    requires k <= |ends| <= |specs|
  {
    && |statuses| == k
    && forall i :: 0 <= i < k ==>
         && statuses[i].id == specs[i].id
         && (ends[i] == Told(statuses[i].state) || ends[i] == SeenThenFailed(statuses[i].state))
  }

  /** **What `complete` means**: nothing was left out, no destination unread,
      and no status stands for the agent's own failure to look or act. Then the
      report names exactly the desired ids, in order, workers and machines. */
  lemma CompleteIsEveryItemSeen(m: Memory, view: Desired, workerItems: seq<Item>, items: seq<Item>)
    requires |workerItems| == |view.workers| && |items| == |view.instances|
    ensures var (w, i) := Run(m, view, workerItems, items);
            var complete := Count(w.ends, |view.workers|) == 0 && Count(i.ends, |view.instances|) == 0;
            && (complete <==> (forall k :: 0 <= k < |w.ends| ==> !Unobserved(w.ends[k]))
                              && forall k :: 0 <= k < |i.ends| ==> !Unobserved(i.ends[k]))
            && (complete ==>
                  && AllSaid(view.workers, w.ends, Reported(view.workers, w.ends, |view.workers|), |view.workers|)
                  && AllSaid(view.instances, i.ends, Reported(view.instances, i.ends, |view.instances|), |view.instances|)
                  && (forall k :: 0 <= k < |view.workers| ==> view.workers[k].intent != Unknown)
                  && forall k :: 0 <= k < |view.instances| ==> view.instances[k].intent != Unknown)
  {
    var (w, i) := Run(m, view, workerItems, items);
    NothingCounted(w.ends, |view.workers|);
    NothingCounted(i.ends, |view.instances|);
    ReportedOrCounted(view.workers, w.ends, |view.workers|);
    ReportedOrCounted(view.instances, i.ends, |view.instances|);
    UnknownIsUnread(Trace(m, [], []), Some(view.version), view.workers, workerItems, |view.workers|);
    UnknownIsUnread(w.trace, None, view.instances, items, |view.instances|);
  }

  lemma {:induction false} UnknownIsUnread(t: Trace, version: Option<nat>, specs: seq<InstanceSpec>, items: seq<Item>, k: nat)
    requires k <= |specs| == |items|
    ensures forall i :: 0 <= i < k ==> (specs[i].intent == Unknown ==> Looped(t, version, specs, items, k).ends[i] == Unread)
  {
    if k > 0 {
      UnknownIsUnread(t, version, specs, items, k - 1);
    }
  }

  /** **A status is never the agent's failure unless it counts as one**: an item
      told of was looked at and acted on with every step answered; one seen and
      then failed is an instance that stands, told as it was before any act. */
  lemma WhatAnEndSays(t: Trace, version: Option<nat>, spec: InstanceSpec, it: Item)
    ensures var end := Of(t, version, spec, it).end;
            && (end.Told? ==>
                  && spec.intent != Unknown
                  && (spec.intent == Absent ==>
                        it.doomed == NothingClaimed || (it.doomed == Guest(true) && SaysAbsent(Says(t.memory, it.first, spec.id))))
                  && (spec.intent != Absent ==>
                        && !it.torn && (version.None? ==> it.offered) && !it.sight.Fails? && !it.sight.CantLook?
                        && (it.sight.Standing? ==> it.sight.steady && it.sight.sound)
                        && (it.sight.Nowhere? && end.state != Errored ==> it.sight.places && it.sight.made)
                        && (it.sight.Nowhere? && end.state == Up ==> it.sight.ready && it.sight.starts)))
            && (end.SeenThenFailed? ==>
                  && version.None? && it.sight.Standing? && !(it.sight.steady && it.sight.sound)
                  && end.state == if it.sight.running then Up else Down)
  {
  }

  // ---- What was acted on is reported ----

  predicate SaysSomething(end: End) {
    !end.NotLooked? && !end.Unread?
  }

  /** Acts only on `id`, after those of `t`, and never in silence. */
  ghost predicate ActsOn(t: Trace, e: Ended, id: string) {
    && |t.acts| <= |e.trace.acts| && e.trace.acts[..|t.acts|] == t.acts
    && (forall i :: |t.acts| <= i < |e.trace.acts| ==> e.trace.acts[i].id == id)
    && (|t.acts| < |e.trace.acts| ==> SaysSomething(e.end))
  }

  lemma ASightsActs(t: Trace, spec: InstanceSpec, s: Sight, a: Answer, failed: End)
    requires SaysSomething(failed)
    ensures s.Standing? ==> ActsOn(t, Converged(t, spec, s, a, false, failed), spec.id)
    ensures s.Nowhere? ==> ActsOn(t, Created(t, spec, s, a), spec.id)
  {
  }

  lemma AnInstancesActs(t: Trace, spec: InstanceSpec, it: Item)
    ensures ActsOn(t, OfInstance(t, spec, it), spec.id)
  {
    var read := if spec.built then t else Asking(t, it.first);
    ASightsActs(read, spec, it.sight, it.second, SeenThenFailed(if it.sight.Standing? && it.sight.running then Up else Down));
  }

  lemma AWorkersActs(t: Trace, version: nat, spec: InstanceSpec, it: Item)
    ensures ActsOn(t, OfWorker(t, version, spec, it), spec.id)
  {
  }

  lemma AnItemsActs(t: Trace, version: Option<nat>, spec: InstanceSpec, it: Item)
    ensures ActsOn(t, Of(t, version, spec, it), spec.id)
  {
    if version.Some? {
      AWorkersActs(t, version.value, spec, it);
    } else {
      AnInstancesActs(t, spec, it);
    }
  }

  /** The act is of one of the first `k` items, and that item says something. */
  ghost predicate IsOfOne(act: Act, specs: seq<InstanceSpec>, ends: seq<End>, k: nat)
    requires k <= |ends| <= |specs|
  {
    exists i :: 0 <= i < k && specs[i].id == act.id && SaysSomething(ends[i])
  }

  lemma {:induction false} ALoopsActs(t: Trace, version: Option<nat>, specs: seq<InstanceSpec>, items: seq<Item>, k: nat)
    requires k <= |specs| == |items|
    ensures var l := Looped(t, version, specs, items, k);
            && |t.acts| <= |l.trace.acts| && l.trace.acts[..|t.acts|] == t.acts
            && forall i :: |t.acts| <= i < |l.trace.acts| ==> IsOfOne(l.trace.acts[i], specs, l.ends, k)
  {
    if k > 0 {
      ALoopsActs(t, version, specs, items, k - 1);
      var before := Looped(t, version, specs, items, k - 1);
      AnItemsActs(before.trace, version, specs[k - 1], items[k - 1]);
      MoreOfOne(t, before, Of(before.trace, version, specs[k - 1], items[k - 1]), specs, k);
    }
  }

  lemma MoreOfOne(t: Trace, before: Loop, e: Ended, specs: seq<InstanceSpec>, k: nat)
    requires 0 < k <= |specs| && |before.ends| == k - 1
    requires |t.acts| <= |before.trace.acts| <= |e.trace.acts|
    requires before.trace.acts[..|t.acts|] == t.acts && e.trace.acts[..|before.trace.acts|] == before.trace.acts
    requires forall i :: |t.acts| <= i < |before.trace.acts| ==> IsOfOne(before.trace.acts[i], specs, before.ends, k - 1)
    requires forall i :: |before.trace.acts| <= i < |e.trace.acts| ==> e.trace.acts[i].id == specs[k - 1].id && SaysSomething(e.end)
    ensures e.trace.acts[..|t.acts|] == t.acts
    ensures forall i :: |t.acts| <= i < |e.trace.acts| ==> IsOfOne(e.trace.acts[i], specs, before.ends + [e.end], k)
  {
    var ends := before.ends + [e.end];
    forall i | |t.acts| <= i < |e.trace.acts| ensures IsOfOne(e.trace.acts[i], specs, ends, k) {
      if i < |before.trace.acts| {
        assert e.trace.acts[i] == before.trace.acts[i];
        var j :| 0 <= j < k - 1 && specs[j].id == before.trace.acts[i].id && SaysSomething(before.ends[j]);
        assert ends[j] == before.ends[j];
      } else {
        assert ends[k - 1] == e.end;
      }
    }
  }

  ghost predicate IsReported(statuses: seq<Status>, id: string) {
    exists i :: 0 <= i < |statuses| && statuses[i].id == id
  }

  lemma {:induction false} WhatIsSaidIsReported(specs: seq<InstanceSpec>, ends: seq<End>, k: nat, i: nat)
    requires i < k <= |ends| <= |specs| && SaysSomething(ends[i])
    ensures IsReported(Reported(specs, ends, k), specs[i].id)
  {
    var before := Reported(specs, ends, k - 1);
    var all := before + Said(specs[k - 1].id, ends[k - 1]);
    if i == k - 1 {
      assert all[|before|].id == specs[i].id;
    } else {
      WhatIsSaidIsReported(specs, ends, k - 1, i);
      var j :| 0 <= j < |before| && before[j].id == specs[i].id;
      assert all[j] == before[j];
    }
  }

  /** **Nothing is done in silence**: every machine or worker a pass acted on has
      a status in its report. */
  lemma EveryActIsReported(m: Memory, view: Desired, workerItems: seq<Item>, items: seq<Item>, act: Act)
    requires |workerItems| == |view.workers| && |items| == |view.instances|
    requires act in Run(m, view, workerItems, items).1.trace.acts
    ensures var (w, i) := Run(m, view, workerItems, items);
            || IsReported(Reported(view.workers, w.ends, |view.workers|), act.id)
            || IsReported(Reported(view.instances, i.ends, |view.instances|), act.id)
  {
    var (w, l) := Run(m, view, workerItems, items);
    ALoopsActs(Trace(m, [], []), Some(view.version), view.workers, workerItems, |view.workers|);
    ALoopsActs(w.trace, None, view.instances, items, |view.instances|);
    var a :| 0 <= a < |l.trace.acts| && l.trace.acts[a] == act;
    if a < |w.trace.acts| {
      assert w.trace.acts[a] == act;
      var k :| 0 <= k < |view.workers| && view.workers[k].id == act.id && SaysSomething(w.ends[k]);
      WhatIsSaidIsReported(view.workers, w.ends, |view.workers|, k);
    } else {
      var k :| 0 <= k < |view.instances| && view.instances[k].id == act.id && SaysSomething(l.ends[k]);
      WhatIsSaidIsReported(view.instances, l.ends, |view.instances|, k);
    }
  }
}
