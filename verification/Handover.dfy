/**
 From the boot task to the main loop (`src/heldview.rs:224-264`): a pass each
 time a handshake finds Core unreachable, until it is told one succeeded. Every
 interleaving of the signals, the stop and the boot task's own steps.
 */
module Handover {

  datatype Task = Waiting | Passing | Done

  /** `version` moves with each signal, and `seen` is the one last taken. */
  datatype State = State(
    task: Task,
    version: nat,
    seen: nat,
    closed: bool,       // no more signals can come
    stop: bool,         // finish was called
    finished: bool,     // finish returned
    passes: nat,
    starts: nat
  )

  datatype Step =
    | Signal
    | Close
    | SendStop
    | TakeStop
    | TakeSignal
    | TakeClosed
    | AskStart
    | EndPass
    | Return

  const BEGIN := State(Waiting, 0, 0, false, false, false, 0, 0)

  predicate IsDue(s: State) {
    s.seen < s.version
  }

  function Due(s: State): nat {
    if IsDue(s) then 1 else 0
  }

  predicate Can(s: State, step: Step) {
    match step
    case Signal => !s.closed
    case Close => !s.closed
    case SendStop => !s.stop
    case TakeStop => s.task == Waiting && s.stop
    case TakeSignal => s.task == Waiting && IsDue(s)
    case TakeClosed => s.task == Waiting && s.closed && !IsDue(s)
    case AskStart => s.task == Passing
    case EndPass => s.task == Passing
    case Return => s.stop && s.task == Done && !s.finished
  }

  /** A signal taken after the stop was sent begins no pass. */
  function Do(s: State, step: Step): State
    requires Can(s, step)
  {
    match step
    case Signal => s.(version := s.version + 1)
    case Close => s.(closed := true)
    case SendStop => s.(stop := true)
    case TakeStop => s.(task := Done)
    case TakeSignal =>
      if s.stop then s.(seen := s.version, task := Done)
      else s.(seen := s.version, task := Passing, passes := s.passes + 1)
    case TakeClosed => s.(task := Done)
    case AskStart => s.(starts := s.starts + 1)
    case EndPass => s.(task := Waiting)
    case Return => s.(finished := true)
  }

  predicate IsRun(s: State, steps: seq<Step>)
    decreases |steps|
  {
    steps == [] || (Can(s, steps[0]) && IsRun(Do(s, steps[0]), steps[1..]))
  }

  function End(s: State, steps: seq<Step>): State
    requires IsRun(s, steps)
    decreases |steps|
  {
    if steps == [] then s else End(Do(s, steps[0]), steps[1..])
  }

  // ---- No start once finish returned ----

  lemma {:induction false} NothingOnceDone(s: State, steps: seq<Step>)
    requires s.task == Done && IsRun(s, steps)
    ensures forall j :: 0 <= j < |steps| ==> steps[j] != AskStart
    ensures End(s, steps).starts == s.starts
    decreases |steps|
  {
    if steps != [] {
      NothingOnceDone(Do(s, steps[0]), steps[1..]);
      assert steps == [steps[0]] + steps[1..];
    }
  }

  /** **Every boot start is asked for before finish returns**, in every run. */
  lemma {:induction false} EveryStartIsBeforeFinishReturns(s: State, steps: seq<Step>, i: nat, j: nat)
    requires IsRun(s, steps) && i < |steps| && j < |steps|
    requires steps[i] == Return && steps[j] == AskStart
    ensures j < i
    decreases |steps|
  {
    if i == 0 {
      NothingOnceDone(s, steps);
    } else if j > 0 {
      EveryStartIsBeforeFinishReturns(Do(s, steps[0]), steps[1..], i - 1, j - 1);
    }
  }

  // ---- Passes coalesce ----

  /** The signals that found none waiting. */
  function Fresh(s: State, steps: seq<Step>): nat
    requires IsRun(s, steps)
    decreases |steps|
  {
    if steps == [] then 0
    else (if steps[0] == Signal && !IsDue(s) then 1 else 0) + Fresh(Do(s, steps[0]), steps[1..])
  }

  /** **One pass for each signal that found none waiting**: never more, and, until
      the stop is sent, never fewer but the one still due. */
  lemma {:induction false} OnePassForEachFreshSignal(s: State, steps: seq<Step>)
    requires IsRun(s, steps) && s.seen <= s.version
    ensures End(s, steps).passes + Due(End(s, steps)) <= s.passes + Due(s) + Fresh(s, steps)
    ensures !End(s, steps).stop ==>
              End(s, steps).passes + Due(End(s, steps)) == s.passes + Due(s) + Fresh(s, steps)
    ensures s.stop ==> End(s, steps).passes == s.passes && End(s, steps).stop
    decreases |steps|
  {
    if steps != [] {
      OnePassForEachFreshSignal(Do(s, steps[0]), steps[1..]);
    }
  }

  lemma {:induction false} NoSignalIsFresh(s: State, steps: seq<Step>)
    requires IsRun(s, steps) && Signal !in steps
    ensures Fresh(s, steps) == 0
    decreases |steps|
  {
    if steps != [] {
      assert steps == [steps[0]] + steps[1..];
      NoSignalIsFresh(Do(s, steps[0]), steps[1..]);
    }
  }

  /** While a pass runs, none begins. */
  lemma {:induction false} NoPassBeginsInAPass(s: State, steps: seq<Step>)
    requires s.task == Passing && s.seen <= s.version && IsRun(s, steps) && EndPass !in steps
    ensures End(s, steps).passes == s.passes && End(s, steps).task == Passing
    ensures End(s, steps).seen <= End(s, steps).version
    decreases |steps|
  {
    if steps != [] {
      assert steps == [steps[0]] + steps[1..];
      NoPassBeginsInAPass(Do(s, steps[0]), steps[1..]);
    }
  }

  lemma {:induction false} SeenIsNeverAhead(s: State, steps: seq<Step>)
    requires IsRun(s, steps) && s.seen <= s.version
    ensures End(s, steps).seen <= End(s, steps).version
    decreases |steps|
  {
    if steps != [] {
      SeenIsNeverAhead(Do(s, steps[0]), steps[1..]);
    }
  }

  /** **Any number of signals during a pass cause at most one more**, whatever
      came before it and whatever follows that brings none. */
  lemma AtMostOneMore(before: seq<Step>, during: seq<Step>, after: seq<Step>)
    requires IsRun(BEGIN, before) && End(BEGIN, before).task == Passing
    requires IsRun(End(BEGIN, before), during) && EndPass !in during
    requires IsRun(End(End(BEGIN, before), during), after) && Signal !in after
    ensures End(End(End(BEGIN, before), during), after).passes <= End(BEGIN, before).passes + 1
  {
    var s := End(BEGIN, before);
    SeenIsNeverAhead(BEGIN, before);
    NoPassBeginsInAPass(s, during);
    NoSignalIsFresh(End(s, during), after);
    OnePassForEachFreshSignal(End(s, during), after);
  }

  /** **Over a whole boot**: the passes are at most the signals that found none
      waiting, and exactly those but the one still due while no stop was sent. */
  lemma PassesOfABoot(steps: seq<Step>)
    requires IsRun(BEGIN, steps)
    ensures End(BEGIN, steps).passes <= Fresh(BEGIN, steps)
    ensures !End(BEGIN, steps).stop ==> End(BEGIN, steps).passes == Fresh(BEGIN, steps) - Due(End(BEGIN, steps))
  {
    OnePassForEachFreshSignal(BEGIN, steps);
  }

  /** **Finish can always return**: from any state after the stop was sent, once
      the pass in flight ends, by the boot task's own steps. */
  lemma FinishCanReturn(s: State) returns (steps: seq<Step>)
    requires s.stop && !s.finished
    ensures IsRun(s, steps) && End(s, steps).finished && |steps| <= 3
    ensures AskStart !in steps && End(s, steps).passes == s.passes
  {
    var ends := s.(task := Done);
    assert IsRun(ends, [Return]) && End(ends, [Return]).finished by {
      assert [Return][1..] == [];
    }
    steps := [Return];
    if s.task != Done {
      var waits := s.(task := Waiting);
      assert ([TakeStop] + steps)[1..] == steps;
      steps := [TakeStop] + steps;
      assert IsRun(waits, steps) && End(waits, steps) == End(ends, [Return]);
      if s.task == Passing {
        assert ([EndPass] + steps)[1..] == steps;
        steps := [EndPass] + steps;
      }
    }
  }

  // ---- The state is its history ----

  lemma {:induction false} OneMore(s: State, steps: seq<Step>, t: Step)
    requires IsRun(s, steps + [t])
    ensures IsRun(s, steps) && Can(End(s, steps), t)
    ensures End(s, steps + [t]) == Do(End(s, steps), t)
    decreases |steps|
  {
    if steps == [] {
      assert [] + [t] == [t] && [t][1..] == [];
    } else {
      assert (steps + [t])[1..] == steps[1..] + [t];
      OneMore(Do(s, steps[0]), steps[1..], t);
    }
  }

  function Times(steps: seq<Step>, step: Step): nat {
    multiset(steps)[step]
  }

  /** The step at `k` is `step`, and none of `others` came since. */
  ghost predicate LastAt(steps: seq<Step>, k: nat, step: Step, other: Step) {
    k < |steps| && steps[k] == step && other !in steps[k + 1..]
  }

  /** Some `step` came, and no `other` since. */
  ghost predicate Since(steps: seq<Step>, step: Step, other: Step) {
    exists k: nat :: LastAt(steps, k, step, other)
  }

  lemma RestOfMore(steps: seq<Step>, t: Step, k: nat, other: Step)
    requires k < |steps|
    ensures other in (steps + [t])[k + 1..] <==> other in steps[k + 1..] || other == t
  {
    assert (steps + [t])[k + 1..] == steps[k + 1..] + [t];
  }

  lemma LastOneMore(steps: seq<Step>, t: Step, step: Step, other: Step, k: nat)
    requires k < |steps|
    ensures LastAt(steps + [t], k, step, other) <==> t != other && LastAt(steps, k, step, other)
  {
    RestOfMore(steps, t, k, other);
  }

  lemma LastIsNow(steps: seq<Step>, t: Step, step: Step, other: Step)
    ensures LastAt(steps + [t], |steps|, step, other) <==> t == step
  {
    assert (steps + [t])[|steps| + 1..] == [];
  }

  lemma SinceOneMore(steps: seq<Step>, t: Step, step: Step, other: Step)
    requires step != other
    ensures Since(steps + [t], step, other) <==> t == step || (t != other && Since(steps, step, other))
  {
    LastIsNow(steps, t, step, other);
    forall k: nat | k < |steps|
      ensures LastAt(steps + [t], k, step, other) <==> t != other && LastAt(steps, k, step, other)
    {
      LastOneMore(steps, t, step, other, k);
    }
    if k: nat :| LastAt(steps, k, step, other) {
      assert t != other ==> LastAt(steps + [t], k, step, other);
    }
    if k: nat :| LastAt(steps + [t], k, step, other) {
      assert k < |steps| || k == |steps|;
    }
  }

  /** A signal was taken after the stop was sent. */
  ghost predicate TookTooLate(steps: seq<Step>) {
    exists i, j :: 0 <= i < j < |steps| && steps[i] == SendStop && steps[j] == TakeSignal
  }

  lemma TookTooLateOneMore(steps: seq<Step>, t: Step)
    ensures TookTooLate(steps + [t]) <==> TookTooLate(steps) || (t == TakeSignal && SendStop in steps)
  {
    var all := steps + [t];
    if i, j :| 0 <= i < j < |steps| && steps[i] == SendStop && steps[j] == TakeSignal {
      assert all[i] == SendStop && all[j] == TakeSignal;
    }
    if t == TakeSignal && SendStop in steps {
      var i :| 0 <= i < |steps| && steps[i] == SendStop;
      assert all[i] == SendStop && all[|steps|] == TakeSignal;
    }
    if i, j :| 0 <= i < j < |all| && all[i] == SendStop && all[j] == TakeSignal {
      assert steps[i] == SendStop;
    }
  }

  /** The boot task has ended: told to, or with nobody left to signal it. */
  ghost predicate HasEnded(steps: seq<Step>) {
    TakeStop in steps || TakeClosed in steps || TookTooLate(steps)
  }

  /** What a state is, said of the steps that led to it alone. */
  ghost predicate IsItsHistory(s: State, steps: seq<Step>) {
    && s.version == Times(steps, Signal) && s.starts == Times(steps, AskStart)
    && s.passes == Times(steps, TakeSignal) - (if TookTooLate(steps) then 1 else 0)
    && (s.closed <==> Close in steps) && (s.stop <==> SendStop in steps) && (s.finished <==> Return in steps)
    && (s.task == Done <==> HasEnded(steps))
    && (s.task == Passing <==> !HasEnded(steps) && Since(steps, TakeSignal, EndPass))
    && (IsDue(s) <==> Since(steps, Signal, TakeSignal))
  }

  /** **Every state is its history**: what came is counted, and the boot task
      waits, passes or has ended by what it last took. */
  lemma {:induction false} AStateIsItsHistory(steps: seq<Step>)
    requires IsRun(BEGIN, steps)
    ensures IsItsHistory(End(BEGIN, steps), steps)
    ensures End(BEGIN, steps).seen <= End(BEGIN, steps).version
  {
    if steps != [] {
      var init, t := steps[..|steps| - 1], steps[|steps| - 1];
      assert steps == init + [t];
      OneMore(BEGIN, init, t);
      AStateIsItsHistory(init);
      OneStepIsItsHistory(init, t);
    }
  }

  lemma OneStepIsItsHistory(steps: seq<Step>, t: Step)
    requires IsRun(BEGIN, steps) && Can(End(BEGIN, steps), t)
    requires IsItsHistory(End(BEGIN, steps), steps) && End(BEGIN, steps).seen <= End(BEGIN, steps).version
    ensures IsItsHistory(Do(End(BEGIN, steps), t), steps + [t])
  {
    assert multiset(steps + [t]) == multiset(steps) + multiset{t};
    SinceOneMore(steps, t, TakeSignal, EndPass);
    SinceOneMore(steps, t, Signal, TakeSignal);
    TookTooLateOneMore(steps, t);
  }

  /** **When each step may come**, after any run: said of the run alone. */
  lemma WhenAStepMayCome(steps: seq<Step>)
    requires IsRun(BEGIN, steps)
    ensures var s := End(BEGIN, steps);
            var passing := !HasEnded(steps) && Since(steps, TakeSignal, EndPass);
            var waiting := !HasEnded(steps) && !Since(steps, TakeSignal, EndPass);
            && (Can(s, Signal) <==> Close !in steps)
            && (Can(s, Close) <==> Close !in steps)
            && (Can(s, SendStop) <==> SendStop !in steps)
            && (Can(s, TakeStop) <==> waiting && SendStop in steps)
            && (Can(s, TakeSignal) <==> waiting && Since(steps, Signal, TakeSignal))
            && (Can(s, TakeClosed) <==> waiting && Close in steps && !Since(steps, Signal, TakeSignal))
            && (Can(s, AskStart) <==> passing)
            && (Can(s, EndPass) <==> passing)
            && (Can(s, Return) <==> SendStop in steps && HasEnded(steps) && Return !in steps)
  {
    AStateIsItsHistory(steps);
  }
}
