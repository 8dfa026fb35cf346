/**
 Three runs of one outage in which a boot start is of a machine whose entry in the
 last whole lease file is past: a view that could not be retired, a lease file
 emptied, and a start that comes late. Only the first two are careless.
 */
module OutageGap {
  import opened Wrappers
  import opened Wire
  import opened RunLease
  import opened LeaseFile
  import opened HeldView
  import opened Outage
  import opened Order

  const M := "m"
  const CORE := "core"
  const SPEC := InstanceSpec(M, Running, false)

  /** The view asked for at the hundredth second, and the lease good until `until`. */
  function Over(until: nat): Origin {
    Origin(Kept(Persisted(CORE, 1, 100, [SPEC])), [Written(M, until)])
  }

  /** Two hundred seconds later. */
  function Found(o: Origin, lease: File): State {
    State(300 * SECOND, lease, o.view, None, false)
  }

  function BootGates(): Gates {
    Gates(CORE, 900 * SECOND, Ok(0), false)
  }

  /** The boot start next asked for is of the machine, and its entry is past. */
  ghost predicate StartsAPastOne(o: Origin, s: State, steps: seq<Step>, careful: bool) {
    && Begins(o, s) && IsRun(s, steps, careful)
    && var t := End(s, steps, careful);
    && Can(t, StartsNext, careful) && t.process.value.toStart[0].id == M && IsPast(o, t, M)
  }

  /** The run taken one step further, and where it then is. */
  lemma Go(s: State, steps: seq<Step>, at: State, step: Step, careful: bool) returns (longer: seq<Step>, now: State)
    requires IsRun(s, steps, careful) && End(s, steps, careful) == at && Can(at, step, careful)
    ensures longer == steps + [step]
    ensures IsRun(s, longer, careful) && End(s, longer, careful) == now == Do(at, step, careful)
  {
    longer, now := steps + [step], Do(at, step, careful);
    OneMore(s, steps, step, careful);
  }

  lemma {:induction false} OneMore(s: State, steps: seq<Step>, step: Step, careful: bool)
    requires IsRun(s, steps, careful) && Can(End(s, steps, careful), step, careful)
    ensures IsRun(s, steps + [step], careful)
    ensures End(s, steps + [step], careful) == Do(End(s, steps, careful), step, careful)
    decreases |steps|
  {
    if steps == [] {
      assert [step][1..] == [];
    } else {
      assert (steps + [step])[1..] == steps[1..] + [step];
      OneMore(Do(s, steps[0], careful), steps[1..], step, careful);
    }
  }

  lemma OutageBegins(until: nat, lease: File)
    requires lease == Holds(Json(Over(until).last)) || IsUnread(lease)
    ensures Begins(Over(until), Found(Over(until), lease))
  {
    assert Over(until).last[0].id[0] == 'm';
  }

  /** What every gate lets through, with nothing in the book or a good lease. */
  lemma IsChosen(until: nat, book: Leases)
    requires M in book ==> book[M].deadline > 300 * SECOND
    ensures Gated(BootGates(), Over(until).view, book, 300 * SECOND, 300 * SECOND) == Ok([SPEC])
    ensures Choices([SPEC], book) == [Choice(M, if M in book then Some(book[M].deadline) else None)]
  {
    assert [SPEC][1..] == [];
    assert ToStart([SPEC], book, 300 * SECOND) == [SPEC];
    var chosen := Choices([SPEC], book);
    assert chosen[0].id == SPEC.id;
  }

  lemma IsPastAt(until: nat, t: State)
    requires until * SECOND <= t.wall
    ensures IsPast(Over(until), t, M)
  {
    assert Over(until).last[0].id == M;
  }

  /** A start that read a file of no lease has its pass choose the machine. */
  function ReadNone(refused: bool, toStart: seq<Choice>): State {
    Found(Over(100), Holds(Json([]))).(process := Some(Process(0, map[], Holds(Json([])), Ok([]), true, toStart)), refused := refused)
  }

  lemma IsChosenFromNone(s: State, steps: seq<Step>, at: State) returns (longer: seq<Step>)
    requires Begins(Over(100), s) && IsRun(s, steps, false) && End(s, steps, false) == at
    requires at.process.Some? && at.(lease := Holds(Json([])), process := Some(at.process.value.(file := Holds(Json([]))))) == ReadNone(at.refused, [])
    ensures longer == steps + [Chooses(BootGates())] && StartsAPastOne(Over(100), s, longer, false)
  {
    IsChosen(100, map[]);
    var now: State;
    longer, now := Go(s, steps, at, Chooses(BootGates()), false);
    IsPastAt(100, now);
  }

  const NOT_RETIRED := [Starts(0), Spawns(false, false), Looks({}, true), Dies]

  /** The lease task has rewritten the torn file, and the view is still there. */
  lemma IsRewritten()
    ensures var s := Found(Over(100), Holds(NotJson));
            && IsRun(s, NOT_RETIRED, false)
            && End(s, NOT_RETIRED, false) == s.(lease := Holds(Json([])), refused := true)
  {
    var s := Found(Over(100), Holds(NotJson));
    var steps: seq<Step>, at := [], s;
    var p := Process(0, map[], Holds(NotJson), Err(Unread.Refused), false, []);
    steps, at := Go(s, steps, s, Starts(0), false);
    steps, at := Go(s, steps, s.(process := Some(p)), Spawns(false, false), false);
    LookedOfNone(300 * SECOND, {});
    AnEmptyBookIsWritten();
    var tasked := s.(process := Some(p.(tasked := true)), refused := true);
    steps, at := Go(s, steps, tasked, Looks({}, true), false);
    steps, at := Go(s, steps, tasked.(lease := Holds(Json([]))), Dies, false);
    assert steps == NOT_RETIRED;
  }

  /** **A view that could not be retired** is read again by the next start, which
      finds the lease task's own rewrite of a torn file and takes it for whole. */
  lemma AViewNotRetiredStartsAnExpiredMachine() returns (s: State, steps: seq<Step>)
    ensures steps == NOT_RETIRED + [Starts(0), Spawns(false, false), Chooses(BootGates())]
    ensures s.lease == Holds(NotJson) && StartsAPastOne(Over(100), s, steps, false)
  {
    s := Found(Over(100), Holds(NotJson));
    OutageBegins(100, s.lease);
    IsRewritten();
    var at := s.(lease := Holds(Json([])), refused := true);
    steps, at := Go(s, NOT_RETIRED, at, Starts(0), false);
    steps, at := Go(s, steps, at, Spawns(false, false), false);
    assert at == ReadNone(true, []);
    steps := IsChosenFromNone(s, steps, at);
  }

  /** **A file emptied, rather than torn, is read as a whole book of no lease**:
      the one unread file a start does not find unread. */
  lemma AnEmptiedFileStartsAnExpiredMachine() returns (s: State, steps: seq<Step>)
    ensures steps == [Tears(Holds(Blank)), Starts(0), Spawns(true, false), Chooses(BootGates())]
    ensures s.lease == Holds(Json(Over(100).last)) && StartsAPastOne(Over(100), s, steps, false)
  {
    s := Found(Over(100), Holds(Json(Over(100).last)));
    OutageBegins(100, s.lease);
    var at := s;
    steps := [];
    steps, at := Go(s, steps, at, Tears(Holds(Blank)), false);
    steps, at := Go(s, steps, at, Starts(0), false);
    steps, at := Go(s, steps, at, Spawns(true, false), false);
    assert at.(lease := Holds(Json([])), process := Some(at.process.value.(file := Holds(Json([]))))) == ReadNone(false, []);
    steps := IsChosenFromNone(s, steps, at);
  }

  const GOOD := Lease(310 * SECOND, 310 * SECOND, false)

  lemma TakenUpAlone()
    ensures ResumedInto(map[], Over(310).last, 300 * SECOND, 300 * SECOND) == map[M := GOOD]
  {
  }

  function Began(): State {
    Found(Over(310), Holds(Json(Over(310).last)))
  }

  const STARTED := [Starts(0), Spawns(true, true)]

  /** A start that took the lease up, ten seconds before its end. */
  function TookItUp(toStart: seq<Choice>): State {
    Began().(process := Some(Process(0, map[M := GOOD], Holds(Json(Over(310).last)), Ok(Over(310).last), true, toStart)))
  }

  lemma IsTakenUp()
    ensures IsRun(Began(), STARTED, true) && End(Began(), STARTED, true) == TookItUp([])
  {
    var s := Began();
    var steps: seq<Step>, at := [], s;
    OutageBegins(310, s.lease);
    TakenUpAlone();
    steps, at := Go(s, steps, at, Starts(0), true);
    steps, at := Go(s, steps, at, Spawns(true, true), true);
    assert steps == STARTED;
  }

  const HAS_TIME := Choice(M, Some(310 * SECOND))

  lemma IsChosenInTime() returns (longer: seq<Step>)
    ensures longer == STARTED + [Chooses(BootGates())]
    ensures IsRun(Began(), longer, true) && End(Began(), longer, true) == TookItUp([HAS_TIME])
  {
    IsTakenUp();
    IsChosen(310, map[M := GOOD]);
    var at: State;
    longer, at := Go(Began(), STARTED, TookItUp([]), Chooses(BootGates()), true);
  }

  /** **Chosen in time, started late**, and nothing careless: the boot pass finds
      ten seconds of the lease left, another machine's start takes them, a look
      marks the machine stopped, and then its own start is asked for. */
  lemma ALateStartStartsAnExpiredMachine() returns (s: State, steps: seq<Step>)
    ensures steps == STARTED + [Chooses(BootGates()), Passes(10 * SECOND), Looks({M}, false)]
    ensures s.lease == Holds(Json(Over(310).last)) && StartsAPastOne(Over(310), s, steps, true)
    ensures var p := End(s, steps, true).process.value;
            M in p.book && p.book[M].stopped
  {
    s := Began();
    OutageBegins(310, s.lease);
    steps := IsChosenInTime();
    var at := TookItUp([HAS_TIME]);
    steps, at := Go(s, steps, at, Passes(10 * SECOND), true);
    assert Looked(map[M := GOOD], 310 * SECOND, {M}) == map[M := GOOD.(stopped := true)];
    steps, at := Go(s, steps, at, Looks({M}, false), true);
    IsPastAt(310, at);
  }
}
