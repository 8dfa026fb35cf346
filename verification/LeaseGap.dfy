/**
 Five runs past the lease bound, from a host with nothing on it: each takes one
 step `LeaseRun.Careful` rules out, and Core, the clocks and every look are as
 good as they can be.
 */
module LeaseGap {
  import opened Wrappers
  import opened Wire
  import opened LeaseHeader
  import opened RunLease
  import opened LeaseFile
  import opened LeaseRun
  import opened LeaseExact
  import opened Order

  const M := "m"
  const AT_WORK := InstanceSpec(M, Running, true)
  const OFF := InstanceSpec(M, Stopped, false)
  const HELD := Lease(SECOND, SECOND, false)

  /** A lease of one second. */
  function Example(): Setting {
    Setting(M, 1, 1000 * SECOND, 1000 * SECOND)
  }

  function Header(): string {
    Spaced([Decimal(1)] + [M])
  }

  /** The run taken one step further, and where it then is. */
  lemma Go(c: Setting, s: State, steps: seq<Step>, at: State, step: Step) returns (longer: seq<Step>, now: State)
    requires IsRun(c, s, steps, false) && End(c, s, steps, false) == at && Can(c, at, step)
    ensures longer == steps + [step]
    ensures IsRun(c, s, longer, false) && End(c, s, longer, false) == now == Do(c, at, step)
  {
    Then(c, s, steps, [step]);
    longer, now := steps + [step], Do(c, at, step);
    assert [step][1..] == [];
  }

  lemma {:induction false} Then(c: Setting, s: State, steps: seq<Step>, more: seq<Step>)
    requires IsRun(c, s, steps, false) && IsRun(c, End(c, s, steps, false), more, false)
    ensures IsRun(c, s, steps + more, false)
    ensures End(c, s, steps + more, false) == End(c, End(c, s, steps, false), more, false)
    decreases |steps|
  {
    if steps == [] {
      assert steps + more == more;
    } else {
      assert (steps + more)[1..] == steps[1..] + more;
      Then(c, Do(c, s, steps[0]), steps[1..], more);
    }
  }

  lemma {:induction false} CarefulIsARun(c: Setting, s: State, steps: seq<Step>)
    requires IsRun(c, s, steps, true)
    ensures IsRun(c, s, steps, false) && End(c, s, steps, false) == End(c, s, steps, true)
    decreases |steps|
  {
    if steps != [] {
      CarefulIsARun(c, Do(c, s, steps[0]), steps[1..]);
    }
  }

  /** A run to a state nothing stops it in, on past the bound. */
  lemma ThenPast(steps: seq<Step>, at: State) returns (longer: seq<Step>)
    requires IsRun(Example(), NothingYet(0, 0), steps, false) && End(Example(), NothingYet(0, 0), steps, false) == at
    requires Loose(Example(), at) && (at.superseded.Some? ==> at.superseded.value.0 <= at.time)
    ensures IsRun(Example(), NothingYet(0, 0), longer, false) && Past(Example(), End(Example(), NothingYet(0, 0), longer, false))
    ensures steps <= longer
  {
    LooseRunsPast(Example(), at);
    var more :| IsRun(Example(), at, more, true) && Past(Example(), End(Example(), at, more, true));
    CarefulIsARun(Example(), at, more);
    Then(Example(), NothingYet(0, 0), steps, more);
    longer := steps + more;
  }

  // ---- What the answers do to the book ----

  /** A header that lists the machine for a second. */
  predicate ListsIt(header: string) {
    Parse(header) == Some((1, [M]))
  }

  lemma CoreSaysSo(ask: Ask, header: string)
    requires ListsIt(header) && !ask.late
    ensures CoreSays(Example(), ask, Some(header), [AT_WORK])
  {
  }

  lemma TheHeaderLists()
    ensures ListsIt(Header())
  {
    HeaderReadsBack(1, [M]);
  }

  lemma TheViewsName()
    ensures NamesRunning([AT_WORK], M) && Names([AT_WORK], M) && !NamesRunning([OFF], M)
  {
    assert [AT_WORK][0] == AT_WORK;
  }

  lemma AppliedAlone(ls: Leases, r: Reading, specs: seq<InstanceSpec>, after: Leases)
    requires forall id :: Lookup(after, id) == After(ls, r, specs, id)
    ensures Applied(ls, r, specs) == after
  {
    SameEverywhere(Applied(ls, r, specs), after);
  }

  lemma GivenALease(header: string)
    requires ListsIt(header)
    ensures Applied(map[], Reading(Asked(0, 0), Some(header)), [AT_WORK]) == map[M := HELD]
    ensures Given(Reading(Asked(0, 0), Some(header))) == HELD
  {
    TheViewsName();
    AppliedAlone(map[], Reading(Asked(0, 0), Some(header)), [AT_WORK], map[M := HELD]);
  }

  lemma GivenNone()
    ensures Applied(map[], Reading(Asked(0, 0), None), [OFF]) == map[]
  {
    TheViewsName();
    AppliedAlone(map[], Reading(Asked(0, 0), None), [OFF], map[]);
  }

  // ---- The five runs ----

  /** A pass's own view names it Running, and so does the re-read before its start. */
  function Clears(header: string): seq<Step> {
    [AskView(false), Answer(Some(header), [AT_WORK]), AskView(true), Answer(Some(header), [AT_WORK])]
  }

  /** A host on which a pass may ask for its view. */
  predicate MayAsk(s: State) {
    s.up && !s.booting && s.ask.None? && s.chosen.NoStart? && s.superseded.None?
  }

  lemma IsRenewed(s: State, header: string, after: Leases)
    requires ListsIt(header) && MayAsk(s)
    requires after == Applied(s.leases, Reading(Asked(Now(s), s.host), Some(header)), [AT_WORK])
    ensures var steps := [AskView(false), Answer(Some(header), [AT_WORK])];
            && IsRun(Example(), s, steps, false)
            && End(Example(), s, steps, false) ==
                 s.(leases := after, held := [AT_WORK], own := Some(s.host), wanted := true, cleared := false)
  {
    var asked := s.(ask := Some(Ask(Asked(Now(s), s.host), false, false)), own := None, wanted := false, cleared := false);
    var steps: seq<Step>, at := [], s;
    steps, at := Go(Example(), s, steps, s, AskView(false));
    TheViewsName();
    CoreSaysSo(asked.ask.value, header);
    steps, at := Go(Example(), s, steps, asked, Answer(Some(header), [AT_WORK]));
  }

  lemma IsReRead(s: State, header: string)
    requires ListsIt(header) && MayAsk(s)
    ensures var steps := [AskView(true), Answer(Some(header), [AT_WORK])];
            && IsRun(Example(), s, steps, false)
            && End(Example(), s, steps, false) == s.(held := [AT_WORK], own := None, cleared := s.wanted)
  {
    var asked := s.(ask := Some(Ask(Asked(Now(s), s.host), false, true)), cleared := false);
    var steps: seq<Step>, at := [], s;
    steps, at := Go(Example(), s, steps, s, AskView(true));
    TheViewsName();
    CoreSaysSo(asked.ask.value, header);
    steps, at := Go(Example(), s, steps, asked, Answer(Some(header), [AT_WORK]));
  }

  lemma IsCleared(s: State, header: string, after: Leases)
    requires ListsIt(header) && MayAsk(s)
    requires after == Applied(s.leases, Reading(Asked(Now(s), s.host), Some(header)), [AT_WORK])
    ensures IsRun(Example(), s, Clears(header), false)
    ensures End(Example(), s, Clears(header), false) ==
            s.(leases := after, held := [AT_WORK], own := None, wanted := true, cleared := true)
  {
    IsRenewed(s, header, after);
    var first := [AskView(false), Answer(Some(header), [AT_WORK])];
    IsReRead(s.(leases := after, held := [AT_WORK], own := Some(s.host), wanted := true, cleared := false), header);
    Then(Example(), s, first, [AskView(true), Answer(Some(header), [AT_WORK])]);
    assert first + [AskView(true), Answer(Some(header), [AT_WORK])] == Clears(header);
  }

  /** Named Running, under its lease, its start still to come. */
  function Wanted(): State {
    NothingYet(0, 0).(leases := map[M := HELD], held := [AT_WORK], wanted := true, cleared := true)
  }

  /** And started, before any write of the file. */
  function JustStarted(): State {
    Wanted().(cleared := false, here := true, running := true)
  }

  function Starts(header: string): seq<Step> {
    Clears(header) + [PassStart]
  }

  lemma IsWanted(header: string)
    requires ListsIt(header)
    ensures IsRun(Example(), NothingYet(0, 0), Clears(header), false)
    ensures End(Example(), NothingYet(0, 0), Clears(header), false) == Wanted()
  {
    GivenALease(header);
    IsCleared(NothingYet(0, 0), header, map[M := HELD]);
  }

  lemma HasStarted(header: string) returns (steps: seq<Step>)
    requires ListsIt(header)
    ensures steps == Starts(header)
    ensures IsRun(Example(), NothingYet(0, 0), steps, false) && End(Example(), NothingYet(0, 0), steps, false) == JustStarted()
  {
    IsWanted(header);
    var at: State;
    steps, at := Go(Example(), NothingYet(0, 0), Clears(header), Wanted(), PassStart);
  }

  /** **Started, and not yet in the file**: the agent dies before the lease task's
      next write, the timer finds no entry, and nothing stops the machine. */
  lemma AMachineNotYetInTheFileRunsPast() returns (steps: seq<Step>)
    ensures Starts(Header()) + [Crash] <= steps
    ensures IsRun(Example(), NothingYet(0, 0), steps, false) && Past(Example(), End(Example(), NothingYet(0, 0), steps, false))
  {
    TheHeaderLists();
    steps := HasStarted(Header());
    var at: State;
    steps, at := Go(Example(), NothingYet(0, 0), steps, JustStarted(), Crash);
    steps := ThenPast(steps, at);
  }

  const RENEWED := Lease(2 * SECOND, 2 * SECOND, false)

  lemma GivenAnother(header: string)
    requires ListsIt(header)
    ensures Applied(map[M := HELD], Reading(Asked(SECOND, SECOND), Some(header)), [AT_WORK]) == map[M := RENEWED]
  {
    TheViewsName();
    AppliedAlone(map[M := HELD], Reading(Asked(SECOND, SECOND), Some(header)), [AT_WORK], map[M := RENEWED]);
  }

  const STOPPED := [Tick(SECOND, SECOND), Look]

  /** Its lease past, and a look has stopped it and not marked it yet. */
  function Unmarked(): State {
    JustStarted().(time := SECOND, host := SECOND, lookReal := SECOND, lookHost := SECOND, marking := true, running := false)
  }

  lemma IsStopped()
    ensures IsRun(Example(), JustStarted(), STOPPED, false) && End(Example(), JustStarted(), STOPPED, false) == Unmarked()
  {
    var c, s := Example(), JustStarted();
    var steps: seq<Step>, at := [], s;
    steps, at := Go(c, s, steps, s, Tick(SECOND, SECOND));
    steps, at := Go(c, s, steps, s.(time := SECOND, host := SECOND), Look);
    assert steps == STOPPED;
  }

  function RenewedFirst(header: string): seq<Step> {
    Clears(header) + [PassStart, Marks]
  }

  function Renewed(): State {
    Unmarked().(wanted := true, cleared := true, leases := map[M := RENEWED])
  }

  lemma IsMarkedAtWork() returns (at: State)
    ensures IsRun(Example(), Renewed(), [PassStart, Marks], false) && End(Example(), Renewed(), [PassStart, Marks], false) == at
    ensures Loose(Example(), at) && at.superseded.None?
  {
    var c, s := Example(), Renewed();
    var steps: seq<Step>, now := [], s;
    steps, now := Go(c, s, steps, s, PassStart);
    steps, now := Go(c, s, steps, s.(cleared := false, running := true), Marks);
    at := now;
    assert steps == [PassStart, Marks];
  }

  lemma IsRenewedFirst(header: string) returns (at: State)
    requires ListsIt(header)
    ensures IsRun(Example(), Unmarked(), RenewedFirst(header), false) && End(Example(), Unmarked(), RenewedFirst(header), false) == at
    ensures Loose(Example(), at) && at.superseded.None?
  {
    GivenAnother(header);
    IsCleared(Unmarked(), header, map[M := RENEWED]);
    at := IsMarkedAtWork();
    Then(Example(), Unmarked(), Clears(header), [PassStart, Marks]);
  }

  /** **Renewed before the mark**: a look stops it, its pass renews and starts it,
      and the look then marks the renewed lease stopped. */
  lemma ARenewalBeforeTheMarkRunsPast() returns (steps: seq<Step>)
    ensures Starts(Header()) + STOPPED + RenewedFirst(Header()) <= steps
    ensures IsRun(Example(), NothingYet(0, 0), steps, false) && Past(Example(), End(Example(), NothingYet(0, 0), steps, false))
  {
    TheHeaderLists();
    steps := HasStarted(Header());
    IsStopped();
    Then(Example(), NothingYet(0, 0), steps, STOPPED);
    var at := IsRenewedFirst(Header());
    Then(Example(), NothingYet(0, 0), steps + STOPPED, RenewedFirst(Header()));
    steps := ThenPast(steps + STOPPED + RenewedFirst(Header()), at);
  }

  const PASS_LATE := [Tick(SECOND, SECOND), Look, Marks, PassStart]

  lemma IsStartedByThePassLate() returns (at: State)
    ensures IsRun(Example(), Wanted(), PASS_LATE, false) && End(Example(), Wanted(), PASS_LATE, false) == at
    ensures Loose(Example(), at) && at.superseded.None?
  {
    var c, s := Example(), Wanted();
    var steps: seq<Step> := [];
    at := s;
    steps, at := Go(c, s, steps, at, Tick(SECOND, SECOND));
    steps, at := Go(c, s, steps, at, Look);
    steps, at := Go(c, s, steps, at, Marks);
    steps, at := Go(c, s, steps, at, PassStart);
    assert steps == PASS_LATE;
  }

  /** **Named Running, and its pass too slow**: the lease its answer gave runs out
      before its start is asked for, and a look marks it stopped. */
  lemma ALatePassStartRunsPast() returns (steps: seq<Step>)
    ensures Clears(Header()) + PASS_LATE <= steps
    ensures IsRun(Example(), NothingYet(0, 0), steps, false) && Past(Example(), End(Example(), NothingYet(0, 0), steps, false))
  {
    TheHeaderLists();
    IsWanted(Header());
    var at := IsStartedByThePassLate();
    Then(Example(), NothingYet(0, 0), Clears(Header()), PASS_LATE);
    steps := ThenPast(Clears(Header()) + PASS_LATE, at);
  }

  /** Written, gone off by itself, Core unreachable, and chosen by maintenance. */
  function InHand(): State {
    NothingYet(0, 0).(leases := map[M := HELD], held := [AT_WORK], file := [Written(M, 1)], here := true, chosen := Within(Some(SECOND)))
  }

  /** Written, and gone off by itself. */
  function WentOff(): State {
    JustStarted().(file := [Written(M, 1)], running := false)
  }

  const GOES_OFF := [WriteFile, GuestStops]
  const UNREACHABLE := [AskView(false), LoseAnswer, Maintain]

  lemma FileOfOne(l: Lease)
    ensures FileBody(map[M := l]) == [Written(M, Unix(l.wall))]
  {
    assert (map[M := l]).Keys == {M};
    assert Least(M, {M});
    var body := FileBody(map[M := l]);
    assert |body| == |Ids(body)| == 1;
  }

  lemma IsOff()
    ensures IsRun(Example(), JustStarted(), GOES_OFF, false) && End(Example(), JustStarted(), GOES_OFF, false) == WentOff()
  {
    var c, s := Example(), JustStarted();
    var steps: seq<Step>, at := [], s;
    FileOfOne(HELD);
    steps, at := Go(c, s, steps, s, WriteFile);
    steps, at := Go(c, s, steps, s.(file := [Written(M, 1)]), GuestStops);
    assert steps == GOES_OFF;
  }

  lemma IsMaintained()
    ensures IsRun(Example(), WentOff(), UNREACHABLE, false) && End(Example(), WentOff(), UNREACHABLE, false) == InHand()
  {
    var c, s := Example(), WentOff();
    var asked := s.(ask := Some(Ask(Asked(0, 0), false, false)), own := None, wanted := false);
    var lost := asked.(ask := None);
    var steps: seq<Step>, at := [], s;
    steps, at := Go(c, s, steps, s, AskView(false));
    assert at == asked;
    steps, at := Go(c, s, steps, asked, LoseAnswer);
    assert at == lost;
    TheViewsName();
    steps, at := Go(c, s, steps, lost, Maintain);
    assert steps == UNREACHABLE;
  }

  const LATE := [Tick(SECOND, SECOND), Look, Marks, StartChosen]

  lemma IsStartedLate() returns (at: State)
    ensures IsRun(Example(), InHand(), LATE, false) && End(Example(), InHand(), LATE, false) == at && Loose(Example(), at)
    ensures at.superseded.None?
  {
    var c, s := Example(), InHand();
    var steps: seq<Step> := [];
    at := s;
    steps, at := Go(c, s, steps, at, Tick(SECOND, SECOND));
    steps, at := Go(c, s, steps, at, Look);
    steps, at := Go(c, s, steps, at, Marks);
    steps, at := Go(c, s, steps, at, StartChosen);
    assert steps == LATE;
  }

  /** **Chosen in time, started too late**: Core is unreachable, maintenance finds
      the lease good, another machine's start takes the rest of it, a look marks
      it stopped, and then its own start is asked for. */
  lemma ALateStartRunsPast() returns (steps: seq<Step>)
    ensures Starts(Header()) + GOES_OFF + UNREACHABLE + LATE <= steps
    ensures IsRun(Example(), NothingYet(0, 0), steps, false) && Past(Example(), End(Example(), NothingYet(0, 0), steps, false))
  {
    TheHeaderLists();
    steps := HasStarted(Header());
    IsOff();
    Then(Example(), NothingYet(0, 0), steps, GOES_OFF);
    steps := steps + GOES_OFF;
    IsMaintained();
    Then(Example(), NothingYet(0, 0), steps, UNREACHABLE);
    steps := steps + UNREACHABLE;
    var at := IsStartedLate();
    Then(Example(), NothingYet(0, 0), steps, LATE);
    steps := ThenPast(steps + LATE, at);
  }

  /** Built under Stopped: on this host, off, and under no lease. */
  function BuiltOff(): State {
    NothingYet(0, 0).(held := [OFF], own := Some(0), here := true)
  }

  const BUILT_OFF := [AskView(false), Answer(None, [OFF]), Build]

  lemma IsBuiltOff()
    ensures IsRun(Example(), NothingYet(0, 0), BUILT_OFF, false) && End(Example(), NothingYet(0, 0), BUILT_OFF, false) == BuiltOff()
  {
    var c, s := Example(), NothingYet(0, 0);
    var steps: seq<Step>, at := [], s;
    TheViewsName();
    GivenNone();
    steps, at := Go(c, s, steps, at, AskView(false));
    steps, at := Go(c, s, steps, at, Answer(None, [OFF]));
    steps, at := Go(c, s, steps, at, Build);
    assert steps == BUILT_OFF;
  }

  function ReRead(header: string): seq<Step> {
    [AskView(true), Answer(Some(header), [AT_WORK])]
  }

  lemma IsMaintainedFromIt() returns (at: State)
    ensures var s := BuiltOff().(held := [AT_WORK], own := None);
            IsRun(Example(), s, UNREACHABLE + [StartChosen], false) && End(Example(), s, UNREACHABLE + [StartChosen], false) == at
    ensures Loose(Example(), at) && at.superseded.None?
  {
    var c, s := Example(), BuiltOff().(held := [AT_WORK], own := None);
    var steps: seq<Step> := [];
    at := s;
    TheViewsName();
    steps, at := Go(c, s, steps, at, AskView(false));
    steps, at := Go(c, s, steps, at, LoseAnswer);
    steps, at := Go(c, s, steps, at, Maintain);
    steps, at := Go(c, s, steps, at, StartChosen);
    assert steps == UNREACHABLE + [StartChosen];
  }

  /** **Maintained from a re-read**: built under Stopped, and so under no lease; a
      re-read, whose lease is not applied, names it Running and is the view in
      hand when Core stops answering. */
  lemma AReReadMaintainedRunsPast() returns (steps: seq<Step>)
    ensures BUILT_OFF + ReRead(Header()) + (UNREACHABLE + [StartChosen]) <= steps
    ensures IsRun(Example(), NothingYet(0, 0), steps, false) && Past(Example(), End(Example(), NothingYet(0, 0), steps, false))
  {
    IsBuiltOff();
    TheHeaderLists();
    IsReRead(BuiltOff(), Header());
    Then(Example(), NothingYet(0, 0), BUILT_OFF, ReRead(Header()));
    var at := IsMaintainedFromIt();
    Then(Example(), NothingYet(0, 0), BUILT_OFF + ReRead(Header()), UNREACHABLE + [StartChosen]);
    steps := ThenPast(BUILT_OFF + ReRead(Header()) + (UNREACHABLE + [StartChosen]), at);
  }
}
