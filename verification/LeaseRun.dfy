/**
 The run lease as a protocol over whole runs (`src/lease.rs:9-37`): one leased
 machine on one host, over every interleaving of views asked for, answered late
 or lost, passes, maintenance, the lease task, the host timer, and agents that
 die and start again. Real time and the host's clock are separate; the host's
 clock may run at any rate not under half speed.

 What Core relies on: it supersedes the machine at some moment, and from
 `2T + period` later this host's copy is off.

 Maintenance and the boot pass ask `may_restart` once for a whole list, and
 start its machines one after another, minutes later for the last
 (`src/agent.rs:3864-3868`, `src/heldview.rs:168-217`, `src/instance.rs:1219-1275`,
 `src/proxmox.rs:902-924`). Choosing and starting are two steps here. A look holds
 no lock while it stops a machine, and marks whatever lease is then held
 (`src/lease.rs:180-184, 266-283`): stopping and marking are two steps too.

 A start is a step at the moment the machine begins to run. Its task was asked for
 before, and a look in between finds the machine off and marks its lease all the
 same (`crates/onv-driver-proxmox/src/leased.rs:201-203`).
 */
module LeaseRun {
  import opened Wrappers
  import opened Wire
  import opened LeaseHeader
  import opened RunLease
  import opened LeaseFile
  import opened Order

  /** The machine, its lease in seconds, the longest gap between two looks with
      their stops (in real time), and how old a kept view may be. */
  datatype Setting = Setting(id: string, t: nat, period: nat, maxAge: nat)

  /** A view on its way: asked when, after the supersede or not, by a pass or by
      a re-read inside one. */
  datatype Ask = Ask(asked: Asked, late: bool, reread: bool)

  /** A maintenance or boot pass that still means to start the machine, and the
      deadline its check of the lease saw, if there was a lease. */
  datatype Choice = NoStart | Within(until: Option<int>)

  datatype State = State(
    time: int,                         // real time
    host: int,                         // the host's clock, which the files are written in
    base: int,                         // this process's monotonic clock is host - base
    up: bool,                          // the agent runs
    booting: bool,                     // started, and Core not heard yet
    leases: Leases,
    held: seq<InstanceSpec>,           // the view in hand
    own: Option<int>,                  // it is a pass's own answer: when it was asked for
    ask: Option<Ask>,
    wanted: bool,                      // this pass's own answer names the machine Running
    cleared: bool,                     // and so does the re-read its start waits for
    chosen: Choice,
    marking: bool,                     // the look under way stopped it, and is still to mark its lease
    file: seq<Written>,                // run-lease.json
    kept: seq<InstanceSpec>,           // held-view.json, and when it was asked for
    keptAsked: int,
    here: bool,                        // the machine is on this host
    running: bool,
    lookReal: int,                     // the last look, on both clocks
    lookHost: int,
    superseded: Option<(int, int)>     // when Core superseded it, on both clocks
  )

  datatype Step =
    | Tick(dr: int, dh: int)
    | Supersede
    | AskView(reread: bool)
    | LoseAnswer
    | Answer(header: Option<string>, specs: seq<InstanceSpec>)
    | KeepView
    | Build
    | PassStart
    | Maintain                         // Core is unreachable: chosen from the view in hand
    | BootPass                         // chosen from the kept view
    | StartChosen
    | ChoiceEnds
    | GuestStops
    | Gone
    | Forget
    | Look                             // and its stop, if the lease is past
    | Marks
    | WriteFile
    | TimerLook
    | Crash
    | Restart(newBase: int)

  function Lease0(c: Setting): int {
    c.t * SECOND
  }

  function Now(s: State): int {
    s.host - s.base
  }

  function NothingYet(time: int, host: int): State {
    State(time, host, 0, true, false, map[], [], None, None, false, false, NoStart, false, [], [], 0, false, false, time, host, None)
  }

  /** What Core answers of the machine: Running only in an answer to a view asked
      for before it superseded it, and then listed under T. An answer that does
      not name it is free: nothing below rests on when Core stops naming it. */
  ghost predicate CoreSays(c: Setting, ask: Ask, header: Option<string>, specs: seq<InstanceSpec>) {
    var r := Reading(ask.asked, header);
    NamesRunning(specs, c.id) ==> !ask.late && Lists(r, c.id) && Told(r).value.0 <= c.t
  }

  /** The kept view would have a boot pass start it. */
  ghost predicate KeptRunning(c: Setting, s: State) {
    NamesRunning(s.kept, c.id) && s.host - s.keptAsked <= c.maxAge
  }

  /** The deadline a check of the lease sees now. */
  function Seen(c: Setting, s: State): Option<int> {
    if c.id in s.leases then Some(s.leases[c.id].deadline) else None
  }

  ghost predicate Can(c: Setting, s: State, step: Step) {
    match step
    case Tick(dr, dh) => dr >= 0 && 2 * dh >= dr && s.time + dr <= s.lookReal + c.period
    case Supersede => s.superseded.None?
    case AskView(_) => s.up && s.ask.None? && s.chosen.NoStart?
    case LoseAnswer => s.ask.Some?
    case Answer(header, specs) => s.ask.Some? && CoreSays(c, s.ask.value, header, specs)
    case KeepView => s.up && s.own.Some?
    case Build => s.up && !s.booting && s.chosen.NoStart?
    case PassStart => s.up && s.cleared
    case Maintain =>
      && s.up && !s.booting && s.ask.None? && !s.wanted && s.chosen.NoStart?
      && NamesRunning(s.held, c.id) && MayRestart(s.leases, c.id, Now(s))
    case BootPass => s.up && s.booting && s.chosen.NoStart? && KeptRunning(c, s) && MayRestart(s.leases, c.id, Now(s))
    case StartChosen => s.up && s.here && s.chosen.Within?
    case ChoiceEnds => s.chosen.Within?
    case GuestStops => true
    case Gone => true
    case Forget => s.up && !s.here && !s.wanted && s.chosen.NoStart?
    case Look => s.up && !s.marking
    case Marks => s.up && s.marking
    case WriteFile => s.up
    case TimerLook => !s.up
    case Crash => s.up
    case Restart(_) => !s.up
  }

  ghost predicate Due(s: State, id: string) {
    exists i :: 0 <= i < |s.file| && s.file[i].id == id && s.file[i].until * SECOND <= s.host
  }

  ghost function Do(c: Setting, s: State, step: Step): State
    requires Can(c, s, step)
  {
    match step
    case Tick(dr, dh) => s.(time := s.time + dr, host := s.host + dh)
    case Supersede => s.(superseded := Some((s.time, s.host)))
    case AskView(reread) =>
      s.(ask := Some(Ask(Asked(Now(s), s.host), s.superseded.Some?, reread)), booting := false,
         own := if reread then s.own else None, wanted := reread && s.wanted, cleared := false)
    case LoseAnswer => s.(ask := None)
    case Answer(header, specs) =>
      var a := s.ask.value;
      if a.reread then s.(ask := None, held := specs, own := None, cleared := s.wanted && NamesRunning(specs, c.id))
      else
        var r := Reading(a.asked, header);
        s.(ask := None, held := specs, own := Some(a.asked.wall), leases := Applied(s.leases, r, specs),
           wanted := NamesRunning(specs, c.id), cleared := false)
    case KeepView => s.(kept := s.held, keptAsked := s.own.value)
    case Build => s.(here := true)
    case PassStart => s.(here := true, running := true, cleared := false)
    case Maintain => s.(chosen := Within(Seen(c, s)))
    case BootPass => s.(chosen := Within(Seen(c, s)))
    case StartChosen => s.(chosen := NoStart, running := true)
    case ChoiceEnds => s.(chosen := NoStart)
    case GuestStops => s.(running := false)
    case Gone => s.(here := false, running := false)
    case Forget => s.(leases := s.leases - {c.id})
    case Look =>
      var due := Overdue(s.leases, c.id, Now(s));
      s.(lookReal := s.time, lookHost := s.host, marking := due, running := s.running && !due)
    case Marks => s.(marking := false, leases := MarkedIn(s.leases, {c.id}))
    case WriteFile => s.(file := FileBody(s.leases))
    case TimerLook => s.(lookReal := s.time, lookHost := s.host, running := s.running && !Due(s, c.id))
    case Crash =>
      s.(up := false, booting := false, leases := map[], held := [], own := None, ask := None, wanted := false,
         cleared := false, chosen := NoStart,
         marking := false)
    case Restart(newBase) =>
      s.(up := true, booting := true, base := newBase,
         leases := ResumedInto(map[], s.file, s.host - newBase, s.host))
  }

  // ---- What the bound rests on ----

  /** The lease file does not hold a machine on this host that runs, or that the
      kept view would start. */
  ghost predicate Exposed(c: Setting, s: State) {
    s.here && !Writes(s.file, c.id) && (s.running || KeptRunning(c, s))
  }

  /** A look has stopped it: its lease is marked so, or about to be. */
  predicate Overtaken(c: Setting, s: State) {
    c.id in s.leases && (s.leases[c.id].stopped || s.marking)
  }

  /** No crash leaves it exposed, no maintenance of it is begun without a lease,
      no start takes effect once a look overtook it, and a pass's start does so
      before its lease's deadline. Each is needed: see `LeaseExact`. */
  ghost predicate Careful(c: Setting, s: State, step: Step) {
    match step
    case Crash => !Exposed(c, s)
    case Maintain => s.here ==> c.id in s.leases
    case StartChosen => !Overtaken(c, s)
    case PassStart => !Overtaken(c, s) && (c.id in s.leases ==> Now(s) < s.leases[c.id].deadline)
    case _ => true
  }

  ghost predicate IsRun(c: Setting, s: State, steps: seq<Step>, careful: bool)
    decreases |steps|
  {
    steps == [] ||
    (Can(c, s, steps[0]) && (careful ==> Careful(c, s, steps[0])) && IsRun(c, Do(c, s, steps[0]), steps[1..], careful))
  }

  ghost function End(c: Setting, s: State, steps: seq<Step>, careful: bool): State
    requires IsRun(c, s, steps, careful)
    decreases |steps|
  {
    if steps == [] then s else End(c, Do(c, s, steps[0]), steps[1..], careful)
  }

  // ---- What every step keeps ----

  /** The latest moment of the host's clock any lease of the machine runs to. */
  function Cap(c: Setting, s: State): int {
    (if s.superseded.Some? then s.superseded.value.1 else s.host) + Lease0(c)
  }

  ghost predicate Clocks(c: Setting, s: State) {
    && s.host >= 0
    && s.lookReal <= s.time <= s.lookReal + c.period && s.lookHost <= s.host
    && (s.superseded.Some? ==>
          var (sr, sh) := s.superseded.value;
          && sr <= s.time && 0 <= sh <= s.host && s.time - sr <= 2 * (s.host - sh)
          && (s.lookReal > sr ==> s.lookReal - sr <= 2 * (s.lookHost - sh)))
  }

  ghost predicate FileWithin(file: seq<Written>, id: string, cap: int) {
    forall i :: 0 <= i < |file| && file[i].id == id ==> file[i].until * SECOND <= cap
  }

  ghost predicate Deadlines(c: Setting, s: State) {
    && (c.id in s.leases ==>
          var l := s.leases[c.id];
          && (l.deadline + s.base <= Cap(c, s) || l.deadline <= Now(s))
          && l.wall <= Cap(c, s))
    && FileWithin(s.file, c.id, Cap(c, s))
    && (s.wanted ==> s.up && c.id in s.leases) && (s.cleared ==> s.wanted)
  }

  ghost predicate Asks(s: State) {
    && (s.booting ==> s.up)
    && (s.own.Some? || s.wanted ==> s.up && !s.booting)
    && (s.ask.Some? ==>
          var a := s.ask.value;
          && s.up && !s.booting && a.asked.at + s.base == a.asked.wall <= s.host
          && (a.late ==> s.superseded.Some?)
          && (!a.late && s.superseded.Some? ==> a.asked.wall <= s.superseded.value.1))
  }

  /** Whatever runs here is under a lease, in the book or in the file. */
  ghost predicate Leased(c: Setting, s: State) {
    && (s.running ==> s.here) && (s.marking ==> s.up && !s.running)
    && (s.running && s.up ==> c.id in s.leases && !s.leases[c.id].stopped)
    && (s.running && !s.up ==> Writes(s.file, c.id))
    && ((s.booting || !s.up) && s.here && KeptRunning(c, s) ==> if s.up then c.id in s.leases else Writes(s.file, c.id))
  }

  /** A choice still stands for the lease it saw, which no look had found past its
      deadline unless it overtook it. */
  ghost predicate Chosen(c: Setting, s: State) {
    s.chosen.Within? ==>
      && s.up && s.ask.None? && !s.wanted
      && match s.chosen.until
         case None => !s.here
         case Some(d) =>
           && c.id in s.leases && s.leases[c.id].deadline == d && d + s.base <= Cap(c, s)
           && (Overtaken(c, s) || s.lookHost < d + s.base)
  }

  /** Once a look was made past every deadline, it is off and stays off. */
  ghost predicate OffForGood(c: Setting, s: State) {
    s.superseded.Some? && s.lookHost >= Cap(c, s) ==> !s.running
  }

  ghost predicate Inv(c: Setting, s: State) {
    Clocks(c, s) && Deadlines(c, s) && Asks(s) && Leased(c, s) && Chosen(c, s) && OffForGood(c, s)
  }

  /** The file a look writes, as far as one machine is concerned. */
  lemma WrittenFor(ls: Leases, id: string, cap: int)
    requires cap >= 0 && (id in ls ==> ls[id].wall <= cap)
    ensures FileWithin(FileBody(ls), id, cap)
    ensures Writes(FileBody(ls), id) <==> id in ls
  {
    TheFileNamesTheBook(ls, id);
  }

  lemma WriteFileKeeps(c: Setting, s: State)
    requires c.t > 0 && Inv(c, s) && Can(c, s, WriteFile)
    ensures Inv(c, Do(c, s, WriteFile))
  {
    WrittenFor(s.leases, c.id, Cap(c, s));
    WrittenWithin(c, s, FileBody(s.leases));
  }

  lemma WrittenWithin(c: Setting, s: State, file: seq<Written>)
    requires c.t > 0 && Inv(c, s) && s.up && FileWithin(file, c.id, Cap(c, s))
    ensures Inv(c, s.(file := file))
  {
  }

  lemma LookKeeps(c: Setting, s: State)
    requires c.t > 0 && Inv(c, s) && Can(c, s, Look)
    ensures Inv(c, Do(c, s, Look))
  {
  }

  lemma MarksKeeps(c: Setting, s: State)
    requires c.t > 0 && Inv(c, s) && Can(c, s, Marks)
    ensures Inv(c, Do(c, s, Marks))
  {
  }

  lemma AnswerKeeps(c: Setting, s: State, header: Option<string>, specs: seq<InstanceSpec>)
    requires c.t > 0 && Inv(c, s) && Can(c, s, Answer(header, specs))
    ensures Inv(c, Do(c, s, Answer(header, specs)))
  {
    var r := Reading(s.ask.value.asked, header);
    var after := Applied(s.leases, r, specs);
    assert Lookup(after, c.id) == After(s.leases, r, specs, c.id);
    if !s.ask.value.reread {
      AnsweredWithin(c, s, r, specs, after);
    }
  }

  lemma AnsweredWithin(c: Setting, s: State, r: Reading, specs: seq<InstanceSpec>, after: Leases)
    requires c.t > 0 && Inv(c, s) && s.ask.Some? && s.ask.value.asked == r.asked
    requires CoreSays(c, s.ask.value, r.header, specs)
    requires Lookup(after, c.id) == After(s.leases, r, specs, c.id)
    ensures Inv(c, s.(ask := None, held := specs, own := Some(r.asked.wall), leases := after,
                      wanted := NamesRunning(specs, c.id), cleared := false))
  {
  }

  lemma RestartKeeps(c: Setting, s: State, newBase: int)
    requires c.t > 0 && Inv(c, s) && Can(c, s, Restart(newBase))
    ensures Inv(c, Do(c, s, Restart(newBase)))
  {
    ResumedFor(s.file, s.host - newBase, s.host, c.id);
    ResumedWithin(c, s, newBase, ResumedInto(map[], s.file, s.host - newBase, s.host));
  }

  lemma ResumedWithin(c: Setting, s: State, newBase: int, after: Leases)
    requires c.t > 0 && Inv(c, s) && !s.up
    requires c.id in after <==> Writes(s.file, c.id)
    requires c.id in after ==>
               exists i :: 0 <= i < |s.file| && s.file[i].id == c.id && FromFile(s.file[i], s.host - newBase, s.host) == after[c.id]
    ensures Inv(c, s.(up := true, booting := true, base := newBase, leases := after))
  {
  }

  lemma TimerLookKeeps(c: Setting, s: State)
    requires c.t > 0 && Inv(c, s) && Can(c, s, TimerLook)
    ensures Inv(c, Do(c, s, TimerLook))
  {
  }

  /** Time, Core, and what the agent asks and keeps. */
  lemma WorldKeeps(c: Setting, s: State, step: Step)
    requires c.t > 0 && Inv(c, s) && Can(c, s, step)
    requires step.Tick? || step.Supersede? || step.AskView? || step.LoseAnswer? || step.KeepView?
    ensures Inv(c, Do(c, s, step))
  {
  }

  /** The machine built, started by its pass, stopped or gone, and its lease
      forgotten. */
  lemma MachineKeeps(c: Setting, s: State, step: Step)
    requires c.t > 0 && Inv(c, s) && Can(c, s, step) && Careful(c, s, step)
    requires step.Build? || step.PassStart? || step.GuestStops? || step.Gone? || step.Forget?
    ensures Inv(c, Do(c, s, step))
  {
    match step
    case PassStart => PassStartKeeps(c, s);
    case Forget => ForgetKeeps(c, s);
    case _ =>
  }

  lemma PassStartKeeps(c: Setting, s: State)
    requires c.t > 0 && Inv(c, s) && Can(c, s, PassStart) && Careful(c, s, PassStart)
    ensures Inv(c, s.(here := true, running := true, cleared := false))
  {
  }

  lemma ForgetKeeps(c: Setting, s: State)
    requires c.t > 0 && Inv(c, s) && Can(c, s, Forget)
    ensures Inv(c, s.(leases := s.leases - {c.id}))
  {
  }

  /** A machine chosen, started then or later, or not. */
  lemma ChoiceKeeps(c: Setting, s: State, step: Step)
    requires c.t > 0 && Inv(c, s) && Can(c, s, step) && Careful(c, s, step)
    requires step.Maintain? || step.BootPass? || step.StartChosen? || step.ChoiceEnds?
    ensures Inv(c, Do(c, s, step))
  {
  }

  lemma CrashKeeps(c: Setting, s: State)
    requires c.t > 0 && Inv(c, s) && Can(c, s, Crash) && !Exposed(c, s)
    ensures Inv(c, Do(c, s, Crash))
  {
  }

  lemma StepKeeps(c: Setting, s: State, step: Step)
    requires c.t > 0 && Inv(c, s) && Can(c, s, step) && Careful(c, s, step)
    ensures Inv(c, Do(c, s, step))
  {
    match step
    case Look => LookKeeps(c, s);
    case Marks => MarksKeeps(c, s);
    case WriteFile => WriteFileKeeps(c, s);
    case Answer(header, specs) => AnswerKeeps(c, s, header, specs);
    case Restart(newBase) => RestartKeeps(c, s, newBase);
    case TimerLook => TimerLookKeeps(c, s);
    case Crash => CrashKeeps(c, s);
    case Build => MachineKeeps(c, s, step);
    case PassStart => MachineKeeps(c, s, step);
    case GuestStops => MachineKeeps(c, s, step);
    case Gone => MachineKeeps(c, s, step);
    case Forget => MachineKeeps(c, s, step);
    case Maintain => ChoiceKeeps(c, s, step);
    case BootPass => ChoiceKeeps(c, s, step);
    case StartChosen => ChoiceKeeps(c, s, step);
    case ChoiceEnds => ChoiceKeeps(c, s, step);
    case _ => WorldKeeps(c, s, step);
  }

  lemma {:induction false} RunKeeps(c: Setting, s: State, steps: seq<Step>)
    requires c.t > 0 && Inv(c, s) && IsRun(c, s, steps, true)
    ensures Inv(c, End(c, s, steps, true))
    decreases |steps|
  {
    if steps != [] {
      StepKeeps(c, s, steps[0]);
      RunKeeps(c, Do(c, s, steps[0]), steps[1..]);
    }
  }

  /** It still runs, later than `2T + period` of real time after the supersede. */
  predicate Past(c: Setting, s: State) {
    s.superseded.Some? && s.time > s.superseded.value.0 + 2 * Lease0(c) + c.period && s.running
  }

  lemma NotPast(c: Setting, s: State)
    requires c.t > 0 && Inv(c, s)
    ensures !Past(c, s)
  {
  }

  /** **Off before Core starts another**, in every careful run. */
  lemma OffBeforeCoreStartsAnother(c: Setting, time: int, host: int, steps: seq<Step>)
    requires c.t > 0 && host >= 0 && IsRun(c, NothingYet(time, host), steps, true)
    ensures !Past(c, End(c, NothingYet(time, host), steps, true))
  {
    RunKeeps(c, NothingYet(time, host), steps);
    NotPast(c, End(c, NothingYet(time, host), steps, true));
  }

  // ---- In a host's own terms ----

  /** At a crash, a machine on this host is in the lease file; maintenance starts
      it under a lease; a pass's start takes effect before its lease's deadline,
      and a maintenance or boot start before the deadline its check saw; and
      between a look's stop and its mark nothing is renewed or started. */
  ghost predicate InTime(c: Setting, s: State, step: Step) {
    match step
    case Crash => s.here ==> Writes(s.file, c.id)
    case Maintain => s.here ==> c.id in s.leases
    case StartChosen => !s.marking && (s.chosen.Within? && s.chosen.until.Some? ==> Now(s) < s.chosen.until.value)
    case PassStart => !s.marking && (c.id in s.leases ==> Now(s) < s.leases[c.id].deadline)
    case Marks => c.id in s.leases ==> s.leases[c.id].deadline <= Now(s)
    case _ => true
  }

  /** What is marked stopped is past its deadline. */
  ghost predicate MarkedArePast(c: Setting, s: State) {
    c.id in s.leases && s.leases[c.id].stopped ==> s.leases[c.id].deadline <= Now(s)
  }

  ghost predicate AllInTime(c: Setting, s: State, steps: seq<Step>)
    requires IsRun(c, s, steps, false)
    decreases |steps|
  {
    steps == [] || (InTime(c, s, steps[0]) && AllInTime(c, Do(c, s, steps[0]), steps[1..]))
  }

  lemma MarkedStayPast(c: Setting, s: State, step: Step)
    requires c.t > 0 && Inv(c, s) && MarkedArePast(c, s) && Can(c, s, step) && InTime(c, s, step)
    ensures MarkedArePast(c, Do(c, s, step))
  {
    match step
    case Answer(header, specs) => AnsweredStayPast(c, s, Reading(s.ask.value.asked, header), specs);
    case Restart(newBase) => ResumedFor(s.file, s.host - newBase, s.host, c.id);
    case _ =>
  }

  lemma AnsweredStayPast(c: Setting, s: State, r: Reading, specs: seq<InstanceSpec>)
    requires MarkedArePast(c, s)
    ensures MarkedArePast(c, s.(leases := Applied(s.leases, r, specs)))
  {
    assert Lookup(Applied(s.leases, r, specs), c.id) == After(s.leases, r, specs, c.id);
  }

  lemma {:induction false} InTimeIsCareful(c: Setting, s: State, steps: seq<Step>)
    requires c.t > 0 && Inv(c, s) && MarkedArePast(c, s) && IsRun(c, s, steps, false) && AllInTime(c, s, steps)
    ensures IsRun(c, s, steps, true) && End(c, s, steps, true) == End(c, s, steps, false)
    decreases |steps|
  {
    if steps != [] {
      assert Careful(c, s, steps[0]);
      StepKeeps(c, s, steps[0]);
      MarkedStayPast(c, s, steps[0]);
      InTimeIsCareful(c, Do(c, s, steps[0]), steps[1..]);
    }
  }

  /** **Off, when every start is in time and every lease reached the file.** */
  lemma OffWhenEveryStartIsInTime(c: Setting, time: int, host: int, steps: seq<Step>)
    requires c.t > 0 && host >= 0 && IsRun(c, NothingYet(time, host), steps, false)
    requires AllInTime(c, NothingYet(time, host), steps)
    ensures !Past(c, End(c, NothingYet(time, host), steps, false))
  {
    InTimeIsCareful(c, NothingYet(time, host), steps);
    OffBeforeCoreStartsAnother(c, time, host, steps);
  }
}
