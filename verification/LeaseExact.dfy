/**
 When the lease bound fails, exactly: from any state a careful run reaches, the
 steps `LeaseRun.Careful` asks something of may be followed by a careful run past
 the bound if and only if they are taken without it; a pass's start, when a look
 may come just before it.
 */
module LeaseExact {
  import opened Wrappers
  import opened Wire
  import opened RunLease
  import opened LeaseFile
  import opened LeaseRun

  ghost predicate Reachable(c: Setting, t: State) {
    exists time, host, steps ::
      host >= 0 && IsRun(c, NothingYet(time, host), steps, true) && End(c, NothingYet(time, host), steps, true) == t
  }

  /** Some careful run from here ends past the bound. */
  ghost predicate MayRunPast(c: Setting, s: State) {
    exists steps :: IsRun(c, s, steps, true) && Past(c, End(c, s, steps, true))
  }

  lemma ReachableIsInv(c: Setting, t: State)
    requires c.t > 0 && Reachable(c, t)
    ensures Inv(c, t)
  {
    var time, host, steps :| host >= 0 && IsRun(c, NothingYet(time, host), steps, true)
                             && End(c, NothingYet(time, host), steps, true) == t;
    RunKeeps(c, NothingYet(time, host), steps);
  }

  lemma InvNeverRunsPast(c: Setting, s: State)
    requires c.t > 0 && Inv(c, s)
    ensures !MayRunPast(c, s)
  {
    forall steps | IsRun(c, s, steps, true) ensures !Past(c, End(c, s, steps, true)) {
      RunKeeps(c, s, steps);
      NotPast(c, End(c, s, steps, true));
    }
  }

  // ---- Running with nothing that stops it ----

  /** No look of the lease task stops it, nor, with the agent down, the timer's. */
  ghost predicate Loose(c: Setting, s: State) {
    && s.lookReal <= s.time <= s.lookReal + c.period
    && s.running && (s.marking ==> s.up)
    && if s.up then c.id in s.leases ==> s.leases[c.id].stopped || s.marking else !Writes(s.file, c.id)
  }

  lemma Onward(c: Setting, s: State, step: Step, rest: seq<Step>)
    requires Can(c, s, step) && Careful(c, s, step) && IsRun(c, Do(c, s, step), rest, true)
    ensures IsRun(c, s, [step] + rest, true)
    ensures End(c, s, [step] + rest, true) == End(c, Do(c, s, step), rest, true)
  {
    assert ([step] + rest)[1..] == rest;
  }

  lemma OneLook(c: Setting, s: State) returns (step: Step)
    requires Loose(c, s) && !s.marking
    ensures Can(c, s, step) && Careful(c, s, step)
    ensures Do(c, s, step) == s.(lookReal := s.time, lookHost := s.host)
  {
    if s.up {
      step := Look;
    } else {
      step := TimerLook;
      assert Due(s, c.id) ==> Writes(s.file, c.id);
    }
  }

  lemma {:induction false} RunsOn(c: Setting, s: State, n: nat) returns (steps: seq<Step>)
    requires c.period > 0 && Loose(c, s) && !s.marking
    ensures IsRun(c, s, steps, true)
    ensures var t := End(c, s, steps, true);
            t.running && t.time == s.time + n && t.superseded == s.superseded
    decreases n
  {
    if n == 0 {
      steps := [];
    } else {
      var look := OneLook(c, s);
      var looked := Do(c, s, look);
      steps := RunsOn(c, Do(c, looked, Tick(1, 1)), n - 1);
      Onward(c, looked, Tick(1, 1), steps);
      Onward(c, s, look, [Tick(1, 1)] + steps);
      steps := [look] + ([Tick(1, 1)] + steps);
    }
  }

  lemma MarkedRunsPast(c: Setting, s: State)
    requires c.period > 0 && Loose(c, s) && !s.marking && (s.superseded.Some? ==> s.superseded.value.0 <= s.time)
    ensures MayRunPast(c, s)
  {
    var n := 2 * Lease0(c) + c.period + 1;
    if s.superseded.Some? {
      var steps := RunsOn(c, s, n);
      assert Past(c, End(c, s, steps, true));
    } else {
      var t := Do(c, s, Supersede);
      var steps := RunsOn(c, t, n);
      Onward(c, s, Supersede, steps);
      assert Past(c, End(c, s, [Supersede] + steps, true));
    }
  }

  /** A mark still to come only makes it so. */
  lemma LooseRunsPast(c: Setting, s: State)
    requires c.period > 0 && Loose(c, s) && (s.superseded.Some? ==> s.superseded.value.0 <= s.time)
    ensures MayRunPast(c, s)
  {
    if s.marking {
      MarkedRunsPast(c, Do(c, s, Marks));
      OneStepSooner(c, s, Marks);
    } else {
      MarkedRunsPast(c, s);
    }
  }

  lemma OneStepSooner(c: Setting, s: State, step: Step)
    requires Can(c, s, step) && Careful(c, s, step) && MayRunPast(c, Do(c, s, step))
    ensures MayRunPast(c, s)
  {
    var steps :| IsRun(c, Do(c, s, step), steps, true) && Past(c, End(c, Do(c, s, step), steps, true));
    Onward(c, s, step, steps);
    assert Past(c, End(c, s, [step] + steps, true));
  }

  // ---- A crash ----

  /** Down, on this host, off, not in the file, and kept Running: the next start
      hears nobody and starts it under no lease. */
  lemma ABootStartsIt(c: Setting, s: State)
    requires c.period > 0 && !s.up && !s.booting && s.here && s.chosen.NoStart? && KeptRunning(c, s) && !Writes(s.file, c.id)
    requires s.lookReal <= s.time <= s.lookReal + c.period && (s.superseded.Some? ==> s.superseded.value.0 <= s.time)
    ensures MayRunPast(c, s)
  {
    var s1 := Do(c, s, Restart(0));
    TheLaterIsKept(map[], s.file, s.host - 0, s.host);
    assert c.id !in s1.leases;
    var s2 := Do(c, s1, BootPass);
    var s3 := Do(c, s2, StartChosen);
    LooseRunsPast(c, s3);
    OneStepSooner(c, s2, StartChosen);
    OneStepSooner(c, s1, BootPass);
    OneStepSooner(c, s, Restart(0));
  }

  /** **When a crash may be followed by a run past the bound**: exactly when the
      machine is on this host, the lease file does not hold it, and it runs or
      the kept view would start it. */
  lemma WhenACrashRunsPast(c: Setting, s: State)
    requires c.t > 0 && c.period > 0 && Reachable(c, s) && Can(c, s, Crash)
    ensures MayRunPast(c, Do(c, s, Crash)) <==> s.here && !Writes(s.file, c.id) && (s.running || KeptRunning(c, s))
  {
    ReachableIsInv(c, s);
    var t := Do(c, s, Crash);
    if !Exposed(c, s) {
      CrashKeeps(c, s);
      InvNeverRunsPast(c, t);
    } else if s.running {
      LooseRunsPast(c, t);
    } else {
      ABootStartsIt(c, t);
    }
  }

  // ---- A start ----

  /** **When a maintenance or boot start may be followed by one**: exactly when a
      look has stopped the machine since it was chosen. */
  lemma WhenAChosenStartRunsPast(c: Setting, s: State)
    requires c.t > 0 && c.period > 0 && Reachable(c, s) && Can(c, s, StartChosen)
    ensures MayRunPast(c, Do(c, s, StartChosen)) <==> Overtaken(c, s)
  {
    ReachableIsInv(c, s);
    var t := Do(c, s, StartChosen);
    if Overtaken(c, s) {
      LooseRunsPast(c, t);
    } else {
      ChoiceKeeps(c, s, StartChosen);
      InvNeverRunsPast(c, t);
    }
  }

  /** The lease task's next step, and then the start. */
  ghost predicate LookThenRunsPast(c: Setting, s: State, look: Step, start: Step) {
    && (look == Look || look == Marks) && Can(c, s, look)
    && Can(c, Do(c, s, look), start)
    && MayRunPast(c, Do(c, Do(c, s, look), start))
  }

  /** Late for the lease task: its machine is stopped, or about to be. */
  predicate TooLate(c: Setting, s: State, deadline: int) {
    Overtaken(c, s) || Now(s) >= deadline
  }

  /** The lease task's next step marks it, if it is not in time. */
  lemma TheNextLook(c: Setting, s: State, deadline: int) returns (look: Step)
    requires c.t > 0 && Inv(c, s) && s.up && c.id in s.leases && s.leases[c.id].deadline == deadline
    ensures look == if s.marking then Marks else Look
    ensures Can(c, s, look) && Inv(c, Do(c, s, look))
    ensures Overtaken(c, Do(c, s, look)) <==> TooLate(c, s, deadline)
    ensures !TooLate(c, s, deadline) ==> Do(c, s, look) == s.(lookReal := s.time, lookHost := s.host)
  {
    look := if s.marking then Marks else Look;
    if s.marking {
      MarksKeeps(c, s);
    } else {
      LookKeeps(c, s);
    }
  }

  /** **When a maintenance or boot start is too late**: the lease task's next step
      may come just before it, and the two may be followed by a run past the
      bound, exactly when a look has stopped the machine already or its deadline,
      the one the choice saw, has come. */
  lemma WhenAStartIsTooLate(c: Setting, s: State)
    requires c.t > 0 && c.period > 0 && Reachable(c, s) && Can(c, s, StartChosen)
    ensures s.chosen.until.Some?
    ensures (exists look :: LookThenRunsPast(c, s, look, StartChosen)) <==> TooLate(c, s, s.chosen.until.value)
  {
    ReachableIsInv(c, s);
    var look := TheNextLook(c, s, s.chosen.until.value);
    var looked := Do(c, s, look);
    if TooLate(c, s, s.chosen.until.value) {
      LooseRunsPast(c, Do(c, looked, StartChosen));
      assert LookThenRunsPast(c, s, look, StartChosen);
    } else {
      ChoiceKeeps(c, looked, StartChosen);
      InvNeverRunsPast(c, Do(c, looked, StartChosen));
    }
  }

  /** **When a pass's start is too late**: the same, with the deadline of the lease
      the machine then holds. */
  lemma WhenAPassStartIsTooLate(c: Setting, s: State)
    requires c.t > 0 && c.period > 0 && Reachable(c, s) && Can(c, s, PassStart)
    ensures c.id in s.leases
    ensures (exists look :: LookThenRunsPast(c, s, look, PassStart)) <==> TooLate(c, s, s.leases[c.id].deadline)
  {
    ReachableIsInv(c, s);
    var look := TheNextLook(c, s, s.leases[c.id].deadline);
    var looked := Do(c, s, look);
    if TooLate(c, s, s.leases[c.id].deadline) {
      LooseRunsPast(c, Do(c, looked, PassStart));
      assert LookThenRunsPast(c, s, look, PassStart);
    } else {
      PassStartKeeps(c, looked);
      InvNeverRunsPast(c, Do(c, looked, PassStart));
    }
  }

  // ---- Maintenance under no lease ----

  /** **When maintenance may begin one**: exactly when the machine is on this host
      and the book holds no lease for it. */
  lemma WhenMaintenanceRunsPast(c: Setting, s: State)
    requires c.t > 0 && c.period > 0 && Reachable(c, s) && Can(c, s, Maintain)
    ensures MayRunPast(c, Do(c, s, Maintain)) <==> s.here && c.id !in s.leases
  {
    ReachableIsInv(c, s);
    var t := Do(c, s, Maintain);
    if s.here && c.id !in s.leases {
      LooseRunsPast(c, Do(c, t, StartChosen));
      OneStepSooner(c, t, StartChosen);
    } else {
      ChoiceKeeps(c, s, Maintain);
      InvNeverRunsPast(c, t);
    }
  }
}
