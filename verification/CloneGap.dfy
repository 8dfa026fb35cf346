/**
 What `CloneSafety` asks, and what it allows: a clone the listing does not show
 yet is cloned twice when the journal does not say enough of it, or is not read;
 and a record torn by its own rewrite, or written over, leaves behind what it
 owed.
 */
module CloneGap {
  import opened Wrappers
  import opened CloneJournal
  import opened CloneProtocol
  import opened CloneSafety

  lemma {:induction false} Then(s: State, steps: seq<Step>, step: Step, careful: bool)
    requires IsRun(s, steps, careful) && Can(End(s, steps, careful), step, careful)
    ensures IsRun(s, steps + [step], careful)
    ensures End(s, steps + [step], careful) == Do(End(s, steps, careful), step, careful)
    decreases |steps|
  {
    var all := steps + [step];
    if steps == [] {
      assert all[1..] == [];
    } else {
      assert all[1..] == steps[1..] + [step];
      Then(Do(s, steps[0], careful), steps[1..], step, careful);
    }
  }

  lemma {:induction false} ThenAll(s: State, steps: seq<Step>, more: seq<Step>)
    requires IsRun(s, steps, true) && IsRun(End(s, steps, true), more, true)
    ensures IsRun(s, steps + more, true) && End(s, steps + more, true) == End(End(s, steps, true), more, true)
    decreases |steps|
  {
    if steps == [] {
      assert steps + more == more;
    } else {
      assert (steps + more)[1..] == steps[1..] + more;
      ThenAll(Do(s, steps[0], true), steps[1..], more);
    }
  }

  lemma Go(s: State, steps: seq<Step>, at: State, step: Step, careful: bool) returns (longer: seq<Step>, now: State)
    requires IsRun(s, steps, careful) && End(s, steps, careful) == at && Can(at, step, careful)
    ensures longer == steps + [step]
    ensures IsRun(s, longer, careful) && End(s, longer, careful) == now == Do(at, step, careful)
  {
    Then(s, steps, step, careful);
    longer, now := steps + [step], Do(at, step, careful);
  }

  const M := "m"
  const EMPTY := State(map[], {}, map[], map[], Idle)
  const RECORD := Pending(M, false, Cloning, {})

  const UNLISTED := Vm(Untagged, Some(M), true, false, false, false, {})

  /** One create of `m`, as far as its clone's acceptance, on a host whose
      listing shows nothing and whose journal is empty. */
  lemma AsksForAClone(s: State, steps: seq<Step>, at: State, v: nat) returns (longer: seq<Step>, now: State)
    requires IsRun(s, steps, false) && End(s, steps, false) == at
    requires at.pc.Idle? && at.journal == map[] && v !in at.vms && forall w :: w in at.vms ==> !at.vms[w].listed
    ensures IsRun(s, longer, false) && End(s, longer, false) == now
    ensures now == State(at.vms[v := UNLISTED], at.storage, at.tasks[v := StillRuns], map[v := RECORD], At(Accepted, v, RECORD, true))
  {
    longer, now := Go(s, steps, at, LookForIt(M), false);
    longer, now := Go(s, longer, now, AskOwed(true), false);
    longer, now := Go(s, longer, now, AskStamped, false);
    longer, now := Go(s, longer, now, NextId(v), false);
    longer, now := Go(s, longer, now, WriteRecord(Done), false);
    longer, now := Go(s, longer, now, AskClone(UNLISTED, true), false);
  }

  /** **A clone listed late is cloned twice**: the agent dies between Proxmox's
      acceptance and the second write of its record, the listing does not show
      the clone yet, and the next create makes another. */
  lemma ACloneListedLateIsClonedTwice() returns (steps: seq<Step>)
    ensures Fresh(EMPTY) && IsRun(EMPTY, steps, false) && !AtMostOne(End(EMPTY, steps, false))
  {
    var at: State;
    steps, at := AsksForAClone(EMPTY, [], EMPTY, 1);
    steps, at := Go(EMPTY, steps, at, Crash, false);
    steps, at := Go(EMPTY, steps, at, Settle(1), false);
    steps, at := Go(EMPTY, steps, at, Judge(true), false);
    assert at.journal == map[];
    steps, at := AsksForAClone(EMPTY, steps, at, 2);
    assert 1 in at.vms && 2 in at.vms && at.vms[1] == UNLISTED == at.vms[2];
  }

  // ---- A journal that could not be read ----

  /** Some careful run from here ends with two machines of one id. */
  ghost predicate MayCloneTwice(s: State) {
    exists steps :: IsRun(s, steps, true) && !AtMostOne(End(s, steps, true))
  }

  lemma InvNeverClonesTwice(s: State, homes: Homes)
    requires Inv(s, homes)
    ensures !MayCloneTwice(s)
  {
    forall steps | IsRun(s, steps, true) ensures AtMostOne(End(s, steps, true)) {
      var after := RunKeeps(s, homes, steps);
      var t := End(s, steps, true);
      forall v, w | v in t.vms && w in t.vms && t.vms[v].stamp.Some? && t.vms[v].stamp == t.vms[w].stamp ensures v == w {
        assert Lookup(after, t.vms[v].stamp.value) == Some(v);
      }
    }
  }

  lemma {:induction false} FreeNumber(taken: set<nat>) returns (v: nat)
    ensures v !in taken && forall w :: w in taken ==> w < v
  {
    v := 0;
    if taken != {} {
      var x :| x in taken;
      var rest := FreeNumber(taken - {x});
      v := if x < rest then rest else x + 1;
      forall w | w in taken ensures w < v {
        assert w == x || w in taken - {x};
      }
    }
  }

  /** The create goes on past an unlisted clone it was not told of. */
  lemma ClonesAgain(s: State, homes: Homes, v: nat)
    requires Inv(s, homes) && s.pc.NotThere? && v in s.vms && s.vms[v].stamp == Some(s.pc.id) && !s.vms[v].listed
    ensures MayCloneTwice(Do(s, AskOwed(false), false))
  {
    var id := s.pc.id;
    var t := Do(s, AskOwed(false), false);
    assert !StampListed(t, id) by {
      forall w | w in s.vms && s.vms[w].stamp == Some(id) ensures w == v {
        assert Lookup(homes, id) == Some(w) && Lookup(homes, id) == Some(v);
      }
    }
    var w := FreeNumber(s.vms.Keys);
    var vm := Vm(Untagged, Some(id), true, false, false, true, {});
    var steps: seq<Step>, at := [], t;
    steps, at := Go(t, steps, t, AskStamped, true);
    steps, at := Go(t, steps, at, NextId(w), true);
    steps, at := Go(t, steps, at, WriteRecord(Done), true);
    steps, at := Go(t, steps, at, AskClone(vm, true), true);
    assert at.vms[v] == s.vms[v] && at.vms[w] == vm && v != w;
    assert !AtMostOne(End(t, steps, true));
  }

  /** **When a create that cannot read the journal may clone twice**: exactly when
      a clone of its machine is not listed yet. */
  lemma WhenAnUnreadJournalClonesTwice(s: State)
    requires Reachable(s) && s.pc.NotThere?
    ensures MayCloneTwice(Do(s, AskOwed(false), false)) <==>
            exists v :: v in s.vms && s.vms[v].stamp == Some(s.pc.id) && !s.vms[v].listed
  {
    var homes := Reached(s);
    if AllListed(s, s.pc.id) {
      AskOwedKeeps(s, homes, false);
      InvNeverClonesTwice(Do(s, AskOwed(false), true), homes);
    } else {
      var v :| v in s.vms && s.vms[v].stamp == Some(s.pc.id) && !s.vms[v].listed;
      ClonesAgain(s, homes, v);
    }
  }

  // ---- A record lost by a rewrite ----

  const DISK := "d"
  const MADE := Vm(Untagged, Some(M), true, false, false, true, {DISK})
  const NOTED := Pending(M, true, Cloning, {DISK})

  /** The clone made, its disk on the storage, its record to be rewritten next. */
  function Made(phase: Phase, vm: Vm, rec: Pending): State {
    State(map[1 := vm], {DISK}, map[1 := EndedWell], map[1 := rec], At(phase, 1, rec, false))
  }

  const LOOKS := [LookForIt(M), AskOwed(true), AskStamped, NextId(1)]
  const ASKS := LOOKS + [WriteRecord(Done), AskClone(MADE, true), OthersStore({DISK})]

  /** Nothing looked for was there, on a host with no guest. */
  lemma IsLookedFor(s: State, id: string)
    requires s.pc.Idle? && s.vms == map[] && !Owed(s, id)
    ensures var looks := [LookForIt(id), AskOwed(true), AskStamped, NextId(1)];
            IsRun(s, looks, true) && End(s, looks, true) == s.(pc := Numbered(id, 1, true))
  {
    var steps: seq<Step>, at := [], s;
    steps, at := Go(s, steps, s, LookForIt(id), true);
    steps, at := Go(s, steps, s.(pc := NotThere(id)), AskOwed(true), true);
    steps, at := Go(s, steps, s.(pc := NotOwed(id, true)), AskStamped, true);
    steps, at := Go(s, steps, s.(pc := NotStamped(id, true)), NextId(1), true);
    assert steps == [LookForIt(id), AskOwed(true), AskStamped, NextId(1)];
  }

  function Asked(storage: set<string>): State {
    State(map[1 := MADE], storage, map[1 := StillRuns], map[1 := RECORD], At(Accepted, 1, RECORD, true))
  }

  lemma IsAskedFor()
    ensures IsRun(EMPTY, ASKS, true) && End(EMPTY, ASKS, true) == Asked({DISK})
  {
    IsLookedFor(EMPTY, M);
    IsAccepted();
    ThenAll(EMPTY, LOOKS, [WriteRecord(Done), AskClone(MADE, true), OthersStore({DISK})]);
  }

  lemma IsAccepted()
    ensures var s, steps := EMPTY.(pc := Numbered(M, 1, true)), [WriteRecord(Done), AskClone(MADE, true), OthersStore({DISK})];
            IsRun(s, steps, true) && End(s, steps, true) == Asked({DISK})
  {
    var s := EMPTY.(pc := Numbered(M, 1, true));
    var steps: seq<Step>, at := [], s;
    steps, at := Go(s, steps, s, WriteRecord(Done), true);
    IsMade();
    steps, at := Go(s, steps, EMPTY.(journal := map[1 := RECORD], pc := At(Recorded, 1, RECORD, true)), AskClone(MADE, true), true);
    steps, at := Go(s, steps, Asked({}), OthersStore({DISK}), true);
    assert steps == [WriteRecord(Done), AskClone(MADE, true), OthersStore({DISK})];
  }

  lemma IsMade()
    ensures var s := EMPTY.(journal := map[1 := RECORD], pc := At(Recorded, 1, RECORD, true));
            Can(s, AskClone(MADE, true), true) && Do(s, AskClone(MADE, true), true) == Asked({})
  {
  }

  const COMES := [WriteTask(Done), TaskEnds(1, true), SeeTask, NoteVolumes(true, Done)]
  const TASKED := Pending(M, true, Cloning, {})

  lemma HasCome() returns (steps: seq<Step>)
    ensures steps == ASKS + COMES
    ensures IsRun(EMPTY, steps, true) && End(EMPTY, steps, true) == Made(Claiming, MADE, NOTED)
  {
    IsAskedFor();
    var at: State;
    steps, at := Go(EMPTY, ASKS, Asked({DISK}), WriteTask(Done), true);
    steps, at := Go(EMPTY, steps, Made(Waiting, MADE, TASKED).(tasks := map[1 := StillRuns]), TaskEnds(1, true), true);
    steps, at := Go(EMPTY, steps, Made(Waiting, MADE, TASKED), SeeTask, true);
    steps, at := Go(EMPTY, steps, Made(Cloned, MADE, TASKED), NoteVolumes(true, Done), true);
  }

  const FAILS := [PutClaim(true, true), Configure(false, false)]

  /** Claimed, and its configuring call failed. */
  lemma GivesUp() returns (steps: seq<Step>)
    ensures steps == ASKS + COMES + FAILS
    ensures IsRun(EMPTY, steps, true) && End(EMPTY, steps, true) == Made(GivingUp, MADE.(tags := Claim(M)), NOTED)
  {
    steps := HasCome();
    var at := Made(Claiming, MADE, NOTED);
    steps, at := Go(EMPTY, steps, at, PutClaim(true, true), true);
    steps, at := Go(EMPTY, steps, at, Configure(false, false), true);
  }

  /** The rollback's record written, one way or another; then the machine is
      destroyed, its disk stays, and the disk cannot be looked for. */
  function RolledBack(write: Write): seq<Step> {
    [WriteAbandoned(write), ReadStamp(true), Stop(true), Destroy(true, true, {DISK}), AskVolumes(false, {})]
  }

  /** The machine gone and its disk left. */
  function LeftBehind(journal: map<nat, Pending>): State {
    State(map[], {DISK}, map[1 := EndedWell], journal, Idle)
  }

  const CLAIMED := MADE.(tags := Claim(M))

  /** In its rollback, and what can be read of its record. */
  function Undoing(phase: Phase, seen: bool, journal: map<nat, Pending>): State {
    State(map[1 := CLAIMED], {DISK}, map[1 := EndedWell], journal, At(phase, 1, NOTED, seen))
  }

  const UNDOES := [ReadStamp(true), Stop(true), Destroy(true, true, {DISK}), AskVolumes(false, {})]

  lemma IsStopped(journal: map<nat, Pending>)
    ensures var s, steps := Undoing(Marked, false, journal), [ReadStamp(true), Stop(true)];
            IsRun(s, steps, true) && End(s, steps, true) == Undoing(Halted, true, journal)
  {
    var s := Undoing(Marked, false, journal);
    var steps: seq<Step>, at := [], s;
    steps, at := Go(s, steps, s, ReadStamp(true), true);
    Stops(journal);
    steps, at := Go(s, steps, Undoing(Proven, true, journal), Stop(true), true);
    assert steps == [ReadStamp(true), Stop(true)];
  }

  lemma Stops(journal: map<nat, Pending>)
    ensures Can(Undoing(Proven, true, journal), Stop(true), true)
    ensures Do(Undoing(Proven, true, journal), Stop(true), true) == Undoing(Halted, true, journal)
  {
    assert map[1 := CLAIMED][1 := CLAIMED.(running := false)] == map[1 := CLAIMED];
  }

  lemma IsDestroyed(journal: map<nat, Pending>)
    ensures var s, steps := Undoing(Halted, true, journal), [Destroy(true, true, {DISK}), AskVolumes(false, {})];
            IsRun(s, steps, true) && End(s, steps, true) == LeftBehind(journal)
  {
    var s := Undoing(Halted, true, journal);
    var steps: seq<Step>, at := [], s;
    Destroys(journal);
    steps, at := Go(s, steps, s, Destroy(true, true, {DISK}), true);
    steps, at := Go(s, steps, LeftBehind(journal).(pc := At(Removed, 1, NOTED, true)), AskVolumes(false, {}), true);
    assert steps == [Destroy(true, true, {DISK}), AskVolumes(false, {})];
  }

  lemma Destroys(journal: map<nat, Pending>)
    ensures Can(Undoing(Halted, true, journal), Destroy(true, true, {DISK}), true)
    ensures Do(Undoing(Halted, true, journal), Destroy(true, true, {DISK}), true) ==
            LeftBehind(journal).(pc := At(Removed, 1, NOTED, true))
  {
    assert map[1 := CLAIMED] - {1} == map[];
    assert {DISK} - ({DISK} - {DISK}) == {DISK};
  }

  lemma IsUndone(journal: map<nat, Pending>)
    ensures IsRun(Undoing(Marked, false, journal), UNDOES, true)
    ensures End(Undoing(Marked, false, journal), UNDOES, true) == LeftBehind(journal)
  {
    IsStopped(journal);
    IsDestroyed(journal);
    ThenAll(Undoing(Marked, false, journal), [ReadStamp(true), Stop(true)], [Destroy(true, true, {DISK}), AskVolumes(false, {})]);
    assert [ReadStamp(true), Stop(true)] + [Destroy(true, true, {DISK}), AskVolumes(false, {})] == UNDOES;
  }

  lemma IsRolledBack(write: Write, journal: map<nat, Pending>) returns (steps: seq<Step>)
    requires write == Done || write == Failed(Torn)
    requires journal == if write == Done then map[1 := NOTED.(stage := Abandoned)] else map[]
    ensures steps == ASKS + COMES + FAILS + RolledBack(write)
    ensures IsRun(EMPTY, steps, true) && End(EMPTY, steps, true) == LeftBehind(journal)
  {
    var before := GivesUp();
    var at: State;
    assert Rewritten(map[1 := NOTED], 1, NOTED.(stage := Abandoned), write) == journal;
    steps, at := Go(EMPTY, before, Undoing(GivingUp, false, map[1 := NOTED]), WriteAbandoned(write), true);
    IsUndone(journal);
    ThenAll(EMPTY, steps, UNDOES);
    assert steps + UNDOES == before + RolledBack(write);
    steps := steps + UNDOES;
  }

  /** **A rewrite that fails after its truncation**: the disk was full when the
      rollback's record was to be written, the machine is destroyed, its disk
      cannot be looked for; and though its record should stay, nothing is owed. */
  lemma ATornRewriteLeavesADisk() returns (steps: seq<Step>)
    ensures steps == ASKS + COMES + FAILS + RolledBack(Failed(Torn))
    ensures Fresh(EMPTY) && IsRun(EMPTY, steps, true)
    ensures var t := End(EMPTY, steps, true);
            DISK in t.storage && t.vms == map[] && !Owed(t, M) && Can(t, SayGone(M, true), true) && Can(t, LookForIt(M), true)
  {
    steps := IsRolledBack(Failed(Torn), map[]);
  }

  /** **A death inside one**: the machine, claimed and not configured, stands under
      no record; its rollback is owed by nobody, and it is listed as a machine. */
  lemma ADeathInARewriteDropsARollback() returns (steps: seq<Step>)
    ensures steps == ASKS + COMES + FAILS + [WriteAbandoned(Died(Torn))]
    ensures Fresh(EMPTY) && IsRun(EMPTY, steps, true)
    ensures var t := End(EMPTY, steps, true);
            t.pc.Idle? && !Owed(t, M) && ClaimListed(t, M) && t.vms == map[1 := MADE.(tags := Claim(M))] && !t.vms[1].configured
  {
    steps := GivesUp();
    var at := Made(GivingUp, MADE.(tags := Claim(M)), NOTED);
    steps, at := Go(EMPTY, steps, at, WriteAbandoned(Died(Torn)), true);
    assert 1 in at.vms && at.vms[1].listed && at.vms[1].tags == Claim(M);
  }

  const OTHER := "o"

  /** **A number given again**: the machine of an owed rollback is gone and its disk
      stays, its number is the next create's, and that create's record is written
      over the rollback's. */
  lemma ANumberGivenAgainLosesARollback() returns (before: seq<Step>, steps: seq<Step>)
    ensures before == ASKS + COMES + FAILS + RolledBack(Done)
    ensures steps == before + [LookForIt(OTHER), AskOwed(true), AskStamped, NextId(1), WriteRecord(Done)]
    ensures Fresh(EMPTY) && IsRun(EMPTY, before, true) && IsRun(EMPTY, steps, true)
    ensures Owed(End(EMPTY, before, true), M)
    ensures var t := End(EMPTY, steps, true);
            DISK in t.storage && !Owed(t, M) && t.journal == map[1 := Pending(OTHER, false, Cloning, {})]
  {
    var journal := map[1 := NOTED.(stage := Abandoned)];
    before := IsRolledBack(Done, journal);
    var at := LeftBehind(journal);
    assert 1 in journal && journal[1].id == M;
    IsLookedFor(at, OTHER);
    ThenAll(EMPTY, before, [LookForIt(OTHER), AskOwed(true), AskStamped, NextId(1)]);
    steps := before + [LookForIt(OTHER), AskOwed(true), AskStamped, NextId(1)];
    steps, at := Go(EMPTY, steps, at.(pc := Numbered(OTHER, 1, true)), WriteRecord(Done), true);
  }
}
