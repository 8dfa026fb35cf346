/**
 Any number of starts in one outage (`src/heldview.rs:104-140, 168-222`,
 `src/lease.rs:340-364`). Core answers nobody; the agent may die between any two
 steps; the lease file may be found torn, missing or empty. A boot pass chooses
 its machines at one moment and starts them one after another, minutes later for
 the last, while the lease task looks beside it.
 */
module Outage {
  import opened Wrappers
  import opened Wire
  import opened RunLease
  import opened LeaseFile
  import opened HeldView
  import opened Order

  /** A machine a boot pass means to start, and the deadline its check saw. */
  datatype Choice = Choice(id: string, until: Option<int>)

  /** A start of the agent: its clock's base, its book, the lease file at its start
      and what it found of it, whether the lease task runs yet (the view is retired
      before), and what its boot pass still means to start. */
  datatype Process = Process(
    base: int, book: Leases, file: File, found: Result<seq<Written>, Unread>, tasked: bool, toStart: seq<Choice>
  )

  datatype State = State(
    wall: int,
    lease: File,
    view: ViewFile,
    process: Option<Process>,
    refused: bool                 // a start of this outage found the lease file unread
  )

  /** What the outage began with: the view kept and the last whole lease file. */
  datatype Origin = Origin(view: ViewFile, last: seq<Written>)

  datatype Step =
    | Passes(d: nat)
    | Dies
    | Starts(base: int)
    | Spawns(renamed: bool, removed: bool)
    | Looks(answered: set<string>, written: bool)
    | Tears(file: File)
    | Chooses(g: Gates)
    | StartsNext                  // or finds it needs no start
    | PassEnds

  function Now(s: State, p: Process): int {
    s.wall - p.base
  }

  function Choices(specs: seq<InstanceSpec>, book: Leases): (r: seq<Choice>)
    ensures |r| == |specs|
    ensures forall i :: 0 <= i < |r| ==>
              r[i].id == specs[i].id && r[i].until == if specs[i].id in book then Some(book[specs[i].id].deadline) else None
  {
    seq(|specs|, i requires 0 <= i < |specs| =>
      Choice(specs[i].id, if specs[i].id in book then Some(book[specs[i].id].deadline) else None))
  }

  /** What a boot pass would choose now. */
  function Choosing(s: State, g: Gates): Result<seq<InstanceSpec>, Refusal>
    requires s.process.Some?
  {
    Gated(g, s.view, s.process.value.book, Now(s, s.process.value), s.wall)
  }

  /** `careful`: a file that is torn is found so, and one of the two ways to
      retire a view works. */
  ghost predicate Can(s: State, step: Step, careful: bool) {
    match step
    case Passes(_) => true
    case Dies => s.process.Some?
    case Starts(_) => s.process.None?
    case Spawns(renamed, removed) =>
      s.process.Some? && !s.process.value.tasked && (careful ==> renamed || removed)
    case Looks(_, _) => s.process.Some? && s.process.value.tasked
    case Tears(file) => IsUnread(file) || (!careful && file == Holds(Blank))
    case Chooses(g) =>
      && s.process.Some? && s.process.value.tasked && s.process.value.toStart == []
      && g.leases.Ok? == s.process.value.found.Ok? && Choosing(s, g).Ok?
    case StartsNext => s.process.Some? && s.process.value.toStart != []
    case PassEnds => s.process.Some?
  }

  ghost function Do(s: State, step: Step, careful: bool): State
    requires Can(s, step, careful)
  {
    match step
    case Passes(d) => s.(wall := s.wall + d)
    case Dies => s.(process := None)
    case Starts(base) =>
      (match Read(s.lease)
       case Err(why) => s.(process := Some(Process(base, map[], s.lease, Err(why), false, [])))
       case Ok(body) =>
         s.(process := Some(Process(base, ResumedInto(map[], body, s.wall - base, s.wall), s.lease, Ok(body), false, []))))
    case Spawns(renamed, removed) =>
      var p := s.process.value;
      var t := s.(process := Some(p.(tasked := true)));
      t.(view := if p.found.Err? && (renamed || removed) then NoView else s.view, refused := s.refused || IsUnread(p.file))
    case Looks(answered, written) =>
      var p := s.process.value;
      var book := Looked(p.book, Now(s, p), answered);
      s.(process := Some(p.(book := book)), lease := if written then Holds(Json(FileBody(book))) else s.lease)
    case Tears(file) => s.(lease := file)
    case Chooses(g) => s.(process := Some(s.process.value.(toStart := Choices(Choosing(s, g).value, s.process.value.book))))
    case StartsNext => s.(process := Some(s.process.value.(toStart := s.process.value.toStart[1..])))
    case PassEnds => s.(process := Some(s.process.value.(toStart := [])))
  }

  ghost predicate IsRun(s: State, steps: seq<Step>, careful: bool)
    decreases |steps|
  {
    steps == [] || (Can(s, steps[0], careful) && IsRun(Do(s, steps[0], careful), steps[1..], careful))
  }

  ghost function End(s: State, steps: seq<Step>, careful: bool): State
    requires IsRun(s, steps, careful)
    decreases |steps|
  {
    if steps == [] then s else End(Do(s, steps[0], careful), steps[1..], careful)
  }

  /** The outage begins: no agent runs, and the lease file is the last whole one,
      as the lease task wrote it, or is already unread. */
  ghost predicate Begins(o: Origin, s: State) {
    && s.process.None? && !s.refused && s.view == o.view
    && Ascending(Ids(o.last)) && Read(Holds(Json(o.last))).Ok?
    && (s.lease == Holds(Json(o.last)) || IsUnread(s.lease))
  }

  // ---- What every run keeps ----

  /** The book is that file's, on this start's clock. */
  ghost predicate FromFound(body: seq<Written>, wall: int, base: int, book: Leases) {
    && (forall id :: id in book <==> Writes(body, id))
    && (forall i :: 0 <= i < |body| ==>
          && body[i].id in book
          && var l := book[body[i].id];
          && l.wall == body[i].until * SECOND
          && (l.deadline + base <= wall <==> body[i].until * SECOND <= wall)
          && (l.deadline + base > wall ==> l.deadline + base == body[i].until * SECOND))
  }

  /** Whatever is chosen is named Running by the kept view, and its deadline is
      the one the book still holds. */
  ghost predicate FromChoice(o: Origin, book: Leases, ch: Choice) {
    && o.view.Kept? && NamesRunning(o.view.view.instances, ch.id)
    && ch.until == if ch.id in book then Some(book[ch.id].deadline) else None
  }

  /** A file read whole in this outage is the last one, or empty. */
  ghost predicate LastOrNone(o: Origin, body: seq<Written>) {
    body == o.last || body == []
  }

  ghost predicate ProcessKeeps(o: Origin, wall: int, p: Process) {
    && (p.found.Err? <==> IsUnread(p.file))
    && (p.found.Ok? ==> LastOrNone(o, p.found.value) && FromFound(p.found.value, wall, p.base, p.book))
    && (p.found.Err? ==> p.book == map[] && p.toStart == [])
    && (forall i :: 0 <= i < |p.toStart| ==> FromChoice(o, p.book, p.toStart[i]))
  }

  ghost predicate Inv(o: Origin, s: State) {
    && Ascending(Ids(o.last)) && Read(Holds(Json(o.last))).Ok?
    && (s.view == NoView || s.view == o.view)
    && (Read(s.lease).Ok? ==> LastOrNone(o, Read(s.lease).value))
    && (s.process.Some? ==> ProcessKeeps(o, s.wall, s.process.value))
  }

  /** What care adds: the view is gone once a start found the file unread, and
      until then the file is the last one or unread. */
  ghost predicate CarefulInv(o: Origin, s: State) {
    && (s.refused ==> s.view == NoView)
    && (!s.refused ==> s.lease == Holds(Json(o.last)) || IsUnread(s.lease))
    && (s.process.Some? ==>
          var p := s.process.value;
          && (p.found.Ok? && !s.refused ==> p.found.value == o.last)
          && (p.found.Err? && p.tasked ==> s.refused)
          && (p.toStart != [] ==> !s.refused && p.found.Ok? && p.tasked))
  }

  lemma ABookOfAFile(body: seq<Written>, wall: int, base: int)
    requires Ascending(Ids(body))
    ensures FromFound(body, wall, base, ResumedInto(map[], body, wall - base, wall))
  {
    ResumedAfresh(body, wall - base, wall);
    forall id ensures id in Ids(body) <==> Writes(body, id) {
      IdsAreWritten(body, id);
    }
  }

  lemma StartKeeps(o: Origin, s: State, base: int, careful: bool)
    requires Inv(o, s) && Can(s, Starts(base), careful)
    ensures Inv(o, Do(s, Starts(base), careful))
    ensures CarefulInv(o, s) ==> CarefulInv(o, Do(s, Starts(base), careful))
  {
    var p := Do(s, Starts(base), careful).process.value;
    if Read(s.lease).Ok? {
      assert Ids([]) == [];
      ABookOfAFile(Read(s.lease).value, s.wall, base);
    }
    BegunKeeps(o, s, p);
  }

  lemma BegunKeeps(o: Origin, s: State, p: Process)
    requires Inv(o, s) && s.process.None? && p.found == Read(s.lease) && p.file == s.lease && !p.tasked && p.toStart == []
    requires if p.found.Ok? then FromFound(p.found.value, s.wall, p.base, p.book) else p.book == map[]
    ensures Inv(o, s.(process := Some(p)))
    ensures CarefulInv(o, s) ==> CarefulInv(o, s.(process := Some(p)))
  {
    WhenAFileIsUnread(s.lease);
  }

  lemma LookedIsFromFound(body: seq<Written>, wall: int, base: int, book: Leases, answered: set<string>)
    requires FromFound(body, wall, base, book)
    ensures FromFound(body, wall, base, Looked(book, wall - base, answered))
  {
    var after := Looked(book, wall - base, answered);
    forall i | 0 <= i < |body|
      ensures body[i].id in after
      ensures after[body[i].id].(stopped := false) == book[body[i].id].(stopped := false)
    {
    }
  }

  lemma FoundIsRewritten(o: Origin, body: seq<Written>, wall: int, base: int, book: Leases)
    requires Ascending(Ids(o.last)) && LastOrNone(o, body) && FromFound(body, wall, base, book)
    ensures FileBody(book) == body
  {
    assert Ids([]) == [];
    BookIsTheFile(body, book);
  }

  lemma AnEmptyBookIsWritten()
    ensures FileBody(map[]) == []
  {
    assert |Ids(FileBody(map[]))| == 0;
  }

  lemma LookKeeps(o: Origin, s: State, answered: set<string>, written: bool, careful: bool)
    requires Inv(o, s) && Can(s, Looks(answered, written), careful)
    ensures Inv(o, Do(s, Looks(answered, written), careful))
    ensures CarefulInv(o, s) ==> CarefulInv(o, Do(s, Looks(answered, written), careful))
  {
    var p := s.process.value;
    LookedKeeps(o, s, p, answered, Looked(p.book, Now(s, p), answered), written);
  }

  lemma LookedKeeps(o: Origin, s: State, p: Process, answered: set<string>, book: Leases, written: bool)
    requires Inv(o, s) && s.process == Some(p) && p.tasked
    requires book == Looked(p.book, s.wall - p.base, answered)
    ensures var t := s.(process := Some(p.(book := book)), lease := if written then Holds(Json(FileBody(book))) else s.lease);
            Inv(o, t) && (CarefulInv(o, s) ==> CarefulInv(o, t))
  {
    TheBookAfter(s.wall, p, answered, book);
    OnlyMarked(p.book, s.wall - p.base, answered, book);
    LookedWithin(o, s, p, book, s.lease);
    if written {
      var body := WhatItWrites(o, s.wall, p, book);
      LookedWithin(o, s, p, book, Holds(Json(body)));
    }
  }

  /** A look leaves every lease in the book, with its deadline. */
  ghost predicate SameDeadlines(before: Leases, after: Leases) {
    after.Keys == before.Keys && forall id :: id in before ==> after[id].deadline == before[id].deadline
  }

  lemma OnlyMarked(book: Leases, now: int, answered: set<string>, after: Leases)
    requires after == Looked(book, now, answered)
    ensures SameDeadlines(book, after)
  {
  }

  lemma TheBookAfter(wall: int, p: Process, answered: set<string>, book: Leases)
    requires if p.found.Ok? then FromFound(p.found.value, wall, p.base, p.book) else p.book == map[]
    requires book == Looked(p.book, wall - p.base, answered)
    ensures if p.found.Ok? then FromFound(p.found.value, wall, p.base, book) else book == map[]
  {
    if p.found.Ok? {
      LookedIsFromFound(p.found.value, wall, p.base, p.book, answered);
    } else {
      LookedOfNone(wall - p.base, answered);
    }
  }

  /** The file it found, or nothing. */
  lemma WhatItWrites(o: Origin, wall: int, p: Process, book: Leases) returns (body: seq<Written>)
    requires Ascending(Ids(o.last)) && Read(Holds(Json(o.last))).Ok?
    requires if p.found.Ok? then LastOrNone(o, p.found.value) && FromFound(p.found.value, wall, p.base, book) else book == map[]
    ensures FileBody(book) == body == (if p.found.Ok? then p.found.value else [])
    ensures Read(Holds(Json(body))) == Ok(body)
  {
    if p.found.Ok? {
      body := p.found.value;
      FoundIsRewritten(o, body, wall, p.base, book);
    } else {
      body := [];
      AnEmptyBookIsWritten();
    }
    ReadsBack(o, body);
  }

  lemma LookedOfNone(now: int, answered: set<string>)
    ensures Looked(map[], now, answered) == map[]
  {
  }

  lemma ReadsBack(o: Origin, body: seq<Written>)
    requires Read(Holds(Json(o.last))).Ok? && LastOrNone(o, body)
    ensures Read(Holds(Json(body))) == Ok(body)
  {
  }

  lemma LookedWithin(o: Origin, s: State, p: Process, book: Leases, lease: File)
    requires Inv(o, s) && s.process == Some(p) && p.tasked && SameDeadlines(p.book, book)
    requires if p.found.Ok? then FromFound(p.found.value, s.wall, p.base, book) else book == map[]
    requires lease == s.lease || Read(lease) == Ok(if p.found.Ok? then p.found.value else [])
    requires lease == s.lease || (p.found.Ok? ==> lease == Holds(Json(p.found.value)))
    ensures var t := s.(process := Some(p.(book := book)), lease := lease);
            Inv(o, t) && (CarefulInv(o, s) ==> CarefulInv(o, t))
  {
  }

  lemma ChoiceKeeps(o: Origin, s: State, g: Gates, careful: bool)
    requires Inv(o, s) && Can(s, Chooses(g), careful)
    ensures Inv(o, Do(s, Chooses(g), careful))
    ensures CarefulInv(o, s) ==> CarefulInv(o, Do(s, Chooses(g), careful))
  {
    var p := s.process.value;
    var specs := Choosing(s, g).value;
    forall i | 0 <= i < |specs| ensures o.view.Kept? && NamesRunning(o.view.view.instances, specs[i].id) {
      assert specs[i] in specs;
      IsNamed(g, s.view, p.book, Now(s, p), s.wall, specs, i);
    }
    ChosenKeep(o, s, Choices(specs, p.book));
  }

  lemma IsNamed(g: Gates, file: ViewFile, ls: Leases, now: int, wall: int, specs: seq<InstanceSpec>, i: nat)
    requires Gated(g, file, ls, now, wall) == Ok(specs) && i < |specs|
    ensures file.Kept? && NamesRunning(file.view.instances, specs[i].id)
  {
    assert specs[i] in specs;
  }

  lemma ChosenKeep(o: Origin, s: State, chosen: seq<Choice>)
    requires Inv(o, s) && s.process.Some? && s.process.value.tasked && s.process.value.found.Ok?
    requires forall i :: 0 <= i < |chosen| ==> FromChoice(o, s.process.value.book, chosen[i])
    requires s.view.Kept?
    ensures Inv(o, s.(process := Some(s.process.value.(toStart := chosen))))
    ensures CarefulInv(o, s) ==> CarefulInv(o, s.(process := Some(s.process.value.(toStart := chosen))))
  {
  }

  lemma TimeKeeps(o: Origin, s: State, d: nat)
    requires Inv(o, s)
    ensures Inv(o, s.(wall := s.wall + d))
    ensures CarefulInv(o, s) ==> CarefulInv(o, s.(wall := s.wall + d))
  {
  }

  /** What is still to start, less some of it. */
  lemma FewerKeep(o: Origin, s: State, fewer: seq<Choice>)
    requires Inv(o, s) && s.process.Some? && forall ch :: ch in fewer ==> ch in s.process.value.toStart
    ensures Inv(o, s.(process := Some(s.process.value.(toStart := fewer))))
    ensures CarefulInv(o, s) ==> CarefulInv(o, s.(process := Some(s.process.value.(toStart := fewer))))
  {
    var p := s.process.value;
    forall i | 0 <= i < |fewer| ensures FromChoice(o, p.book, fewer[i]) {
      assert fewer[i] in fewer;
    }
    assert fewer != [] ==> fewer[0] in fewer;
  }

  lemma StepKeeps(o: Origin, s: State, step: Step, careful: bool)
    requires Inv(o, s) && Can(s, step, careful)
    ensures Inv(o, Do(s, step, careful))
    ensures careful && CarefulInv(o, s) ==> CarefulInv(o, Do(s, step, careful))
  {
    match step
    case Passes(d) => TimeKeeps(o, s, d);
    case Starts(base) => StartKeeps(o, s, base, careful);
    case Looks(answered, written) => LookKeeps(o, s, answered, written, careful);
    case Chooses(g) => ChoiceKeeps(o, s, g, careful);
    case StartsNext => FewerKeep(o, s, s.process.value.toStart[1..]);
    case PassEnds => FewerKeep(o, s, []);
    case Spawns(renamed, removed) => SpawnKeeps(o, s, renamed, removed, careful);
    case Tears(file) => TearKeeps(o, s, file, careful);
    case Dies =>
  }

  lemma SpawnKeeps(o: Origin, s: State, renamed: bool, removed: bool, careful: bool)
    requires Inv(o, s) && Can(s, Spawns(renamed, removed), careful)
    ensures Inv(o, Do(s, Spawns(renamed, removed), careful))
    ensures careful && CarefulInv(o, s) ==> CarefulInv(o, Do(s, Spawns(renamed, removed), careful))
  {
  }

  lemma TearKeeps(o: Origin, s: State, file: File, careful: bool)
    requires Inv(o, s) && Can(s, Tears(file), careful)
    ensures Inv(o, s.(lease := file))
    ensures careful && CarefulInv(o, s) ==> CarefulInv(o, s.(lease := file))
  {
    WhenAFileIsUnread(file);
  }

  lemma {:induction false} RunKeeps(o: Origin, s: State, steps: seq<Step>, careful: bool)
    requires Inv(o, s) && IsRun(s, steps, careful)
    ensures Inv(o, End(s, steps, careful))
    ensures careful && CarefulInv(o, s) ==> CarefulInv(o, End(s, steps, careful))
    decreases |steps|
  {
    if steps != [] {
      StepKeeps(o, s, steps[0], careful);
      RunKeeps(o, Do(s, steps[0], careful), steps[1..], careful);
    }
  }

  // ---- What an outage's boot passes start ----

  /** The last whole lease file holds an entry of it, and that is past. */
  ghost predicate IsPast(o: Origin, s: State, id: string) {
    exists i :: 0 <= i < |o.last| && o.last[i].id == id && o.last[i].until * SECOND <= s.wall
  }

  /** Asked for at or after the deadline its check saw. */
  predicate IsLate(s: State, p: Process, ch: Choice) {
    ch.until.Some? && Now(s, p) >= ch.until.value
  }

  /** **What a boot start starts**, over any run, careful or not: a machine the kept
      view names Running; and one whose entry in the last whole lease file is past
      exactly when that entry is, and the start is late or the file this start of
      the agent found did not hold it. */
  lemma WhatABootStartStarts(o: Origin, s: State, steps: seq<Step>, careful: bool)
    requires Begins(o, s) && IsRun(s, steps, careful) && Can(End(s, steps, careful), StartsNext, careful)
    ensures var t := End(s, steps, careful);
            var p := t.process.value;
            var ch := p.toStart[0];
            && o.view.Kept? && NamesRunning(o.view.view.instances, ch.id) && p.found.Ok?
            && (Writes(p.found.value, ch.id) ==> (IsPast(o, t, ch.id) <==> IsLate(t, p, ch)))
            && (!Writes(p.found.value, ch.id) ==> ch.until == None)
  {
    RunKeeps(o, s, steps, careful);
    var t := End(s, steps, careful);
    var p := t.process.value;
    var ch := p.toStart[0];
    assert FromChoice(o, p.book, ch);
    if Writes(p.found.value, ch.id) {
      OnlyOneEntry(o, t, p, ch.id);
    }
  }

  /** The entry of a machine the found file holds says whether it is past. */
  lemma OnlyOneEntry(o: Origin, t: State, p: Process, id: string)
    requires Ascending(Ids(o.last)) && p.found == Ok(o.last) && FromFound(o.last, t.wall, p.base, p.book) && Writes(o.last, id)
    ensures id in p.book && (IsPast(o, t, id) <==> p.book[id].deadline <= Now(t, p))
  {
    var i :| 0 <= i < |o.last| && o.last[i].id == id;
    forall k | 0 <= k < |o.last| && o.last[k].id == id ensures k == i {
      assert Ids(o.last)[k] == Ids(o.last)[i];
      if k < i { LessIsAsymmetric(Ids(o.last)[k], Ids(o.last)[i]); }
      if i < k { LessIsAsymmetric(Ids(o.last)[i], Ids(o.last)[k]); }
    }
  }

  /** **Only what the view and the leases allow**: over any number of starts, a boot
      start is of a machine the kept view names Running, in no start after one
      that found the lease file unread; and its entry in the last whole lease
      file, if it has one, is not past exactly when the start is asked for before
      the deadline its check saw. */
  lemma OnlyWhatTheViewAndTheLeasesAllow(o: Origin, s: State, steps: seq<Step>)
    requires Begins(o, s) && IsRun(s, steps, true) && Can(End(s, steps, true), StartsNext, true)
    ensures var t := End(s, steps, true);
            var p := t.process.value;
            && o.view.Kept? && NamesRunning(o.view.view.instances, p.toStart[0].id)
            && !t.refused
            && (!IsPast(o, t, p.toStart[0].id) <==> !IsLate(t, p, p.toStart[0]))
  {
    RunKeeps(o, s, steps, true);
    WhatABootStartStarts(o, s, steps, true);
    var t := End(s, steps, true);
    assert t.process.value.found == Ok(o.last);
  }

  // ---- A start of the agent, exactly ----

  /** A start of the agent in this state, as far as its first boot pass. */
  ghost function Started(s: State, base: int, renamed: bool, removed: bool): State
    requires s.process.None?
  {
    Do(Do(s, Starts(base), false), Spawns(renamed, removed), false)
  }

  ghost predicate HasEntry(file: File, id: string) {
    file.Holds? && file.text.Json? && Writes(file.text.leases, id)
  }

  ghost predicate MayChoose(s: State, g: Gates, id: string) {
    Can(s, Chooses(g), false) && NamesRunning(Choosing(s, g).value, id)
  }

  /** **When a start of the agent chooses a machine whose entry is past**: exactly
      when it finds a lease file read whole that does not hold the machine, and a
      view, not retired, that every gate takes and that names it Running. */
  lemma WhenAPastEntryIsChosen(o: Origin, s: State, steps: seq<Step>, base: int, renamed: bool, removed: bool, g: Gates, id: string)
    requires Begins(o, s) && IsRun(s, steps, false)
    requires var t := End(s, steps, false);
             t.process.None? && IsPast(o, t, id) && (g.leases.Err? <==> IsUnread(t.lease))
    ensures var t := End(s, steps, false);
            MayChoose(Started(t, base, renamed, removed), g, id) <==>
              && !IsUnread(t.lease) && !HasEntry(t.lease, id)
              && Opens(g, t.view, t.wall, id)
  {
    RunKeeps(o, s, steps, false);
    StartChooses(o, End(s, steps, false), base, renamed, removed, g, id);
  }

  lemma StartChooses(o: Origin, t: State, base: int, renamed: bool, removed: bool, g: Gates, id: string)
    requires Inv(o, t) && t.process.None? && IsPast(o, t, id) && (g.leases.Err? <==> IsUnread(t.lease))
    ensures MayChoose(Started(t, base, renamed, removed), g, id) <==>
              && !IsUnread(t.lease) && !HasEntry(t.lease, id)
              && Opens(g, t.view, t.wall, id)
  {
    var u := Started(t, base, renamed, removed);
    WhenAFileIsUnread(t.lease);
    StartKeeps(o, t, base, false);
    SpawnKeeps(o, Do(t, Starts(base), false), renamed, removed, false);
    var p := u.process.value;
    WhatABootPassChooses(g, u.view, p.book, Now(u, p), u.wall, id);
    if p.found.Ok? && Writes(p.found.value, id) {
      OnlyOneEntry(o, u, p, id);
    }
  }

  // ---- A boot pass, start by start ----

  function StartsIn(steps: seq<Step>): nat {
    if steps == [] then 0 else (if steps[0].StartsNext? then 1 else 0) + StartsIn(steps[1..])
  }

  /** The agent neither dies, ends its pass nor chooses again. */
  predicate IsOnePass(steps: seq<Step>) {
    forall i :: 0 <= i < |steps| ==> !steps[i].Dies? && !steps[i].PassEnds? && !steps[i].Chooses?
  }

  /** **Each in its turn**: through whatever comes in one boot pass, what is still
      to start is what was chosen, in order, less one for each start asked for. */
  lemma {:induction false} EachInItsTurn(s: State, steps: seq<Step>, careful: bool)
    requires s.process.Some? && IsRun(s, steps, careful) && IsOnePass(steps)
    ensures var t := End(s, steps, careful);
            && t.process.Some? && StartsIn(steps) <= |s.process.value.toStart|
            && t.process.value.toStart == s.process.value.toStart[StartsIn(steps)..]
    decreases |steps|
  {
    if steps != [] {
      var t := Do(s, steps[0], careful);
      EachInItsTurn(t, steps[1..], careful);
      if steps[0].StartsNext? {
        assert s.process.value.toStart[1..][StartsIn(steps[1..])..] == s.process.value.toStart[StartsIn(steps)..];
      }
    }
  }

  /** **What may come next**: time and a torn file at any moment, the rest by the
      one agent there is: it is started where there is none, spawns its lease task
      once, looks and chooses only then, and chooses once a pass. */
  lemma WhatMayComeNext(s: State, base: int, renamed: bool, removed: bool, answered: set<string>, written: bool, g: Gates)
    ensures Can(s, Passes(0), true) && Can(s, Tears(NoFile), true)
    ensures Can(s, Starts(base), true) <==> s.process.None?
    ensures Can(s, Dies, true) <==> s.process.Some?
    ensures Can(s, PassEnds, true) <==> s.process.Some?
    ensures s.process.None? ==> !Can(s, Spawns(renamed, removed), false) && !Can(s, Looks(answered, written), true) && !Can(s, Chooses(g), true)
    ensures s.process.Some? ==>
              var p := s.process.value;
              && (Can(s, Spawns(renamed, removed), false) <==> !p.tasked)
              && (Can(s, Spawns(renamed, removed), true) <==> !p.tasked && (renamed || removed))
              && (Can(s, Looks(answered, written), true) <==> p.tasked)
              && (Can(s, StartsNext, true) <==> p.toStart != [])
              && (Can(s, Chooses(g), true) ==> p.tasked && p.toStart == [])
              && Do(s, PassEnds, true).process == Some(p.(toStart := []))
  {
  }

  /** A look whose file could not be written leaves the file as it was, and a marked
      book. */
  lemma AFailedWriteLeavesTheFile(s: State, answered: set<string>)
    requires Can(s, Looks(answered, false), true)
    ensures var t := Do(s, Looks(answered, false), true);
            && t.lease == s.lease && t.view == s.view
            && t.process.value.book == Looked(s.process.value.book, Now(s, s.process.value), answered)
  {
  }
}
