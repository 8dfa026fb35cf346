/** Where a deadline comes from, over any run of the book (`src/lease.rs:115-251`). */
module LeaseOrigin {
  import opened Wrappers
  import opened Wire
  import opened RunLease
  import opened LeaseFile

  /** What happens to a book. */
  datatype Event =
    | Applies(r: Reading, specs: seq<InstanceSpec>)
    | Looks(now: int, answered: set<string>)
    | Resumes(body: seq<Written>, at: int, wall: int)
    | Forgets(id: string)

  ghost function Happen(ls: Leases, e: Event): Leases {
    match e
    case Applies(r, specs) => Applied(ls, r, specs)
    case Looks(now, answered) => Looked(ls, now, answered)
    case Resumes(body, at, wall) => ResumedInto(ls, body, at, wall)
    case Forgets(id) => ls - {id}
  }

  /** The book after the first `n` events, from an empty one. */
  ghost function Through(events: seq<Event>, n: nat): Leases
    requires n <= |events|
  {
    if n == 0 then map[] else Happen(Through(events, n - 1), events[n - 1])
  }

  /** The event gives `id` this deadline, on both clocks: the ask of a view that
      names it Running and lists it, plus T; or an entry of a file taken up, as far
      ahead as its wall clock says. */
  ghost predicate Gives(e: Event, id: string, deadline: int, wallDeadline: int) {
    match e
    case Applies(r, specs) =>
      && NamesRunning(specs, id) && Lists(r, id)
      && deadline - r.asked.at == wallDeadline - r.asked.wall == Told(r).value.0 * SECOND
    case Resumes(body, at, wall) =>
      exists i :: 0 <= i < |body| && body[i].id == id && IsAhead(body[i], at, wall, deadline, wallDeadline)
    case _ => false
  }

  predicate IsAhead(w: Written, at: int, wall: int, deadline: int, wallDeadline: int) {
    && wallDeadline == w.until * SECOND
    && if wallDeadline > wall then deadline - at == wallDeadline - wall else deadline == at
  }

  lemma OneEvent(ls: Leases, e: Event, id: string)
    requires id in Happen(ls, e)
    ensures var l := Happen(ls, e)[id];
            (id in ls && ls[id].deadline == l.deadline && ls[id].wall == l.wall) || Gives(e, id, l.deadline, l.wall)
  {
    match e
    case Applies(r, specs) =>
      assert Lookup(Applied(ls, r, specs), id) == After(ls, r, specs, id);
    case Resumes(body, at, wall) =>
      TheLaterIsKept(ls, body, at, wall);
      var l := ResumedInto(ls, body, at, wall)[id];
      assert Offered(ls, body, at, wall, id, l);
      if !(id in ls && ls[id] == l) {
        var i :| 0 <= i < |body| && body[i].id == id && FromFile(body[i], at, wall) == l;
        assert IsAhead(body[i], at, wall, l.deadline, l.wall);
      }
    case _ =>
  }

  ghost predicate GivenBy(events: seq<Event>, n: nat, id: string, deadline: int, wallDeadline: int)
    requires n <= |events|
  {
    exists k :: 0 <= k < n && Gives(events[k], id, deadline, wallDeadline)
  }

  lemma GivenLater(events: seq<Event>, n: nat, id: string, deadline: int, wallDeadline: int)
    requires 0 < n <= |events|
    requires GivenBy(events, n - 1, id, deadline, wallDeadline) || Gives(events[n - 1], id, deadline, wallDeadline)
    ensures GivenBy(events, n, id, deadline, wallDeadline)
  {
  }

  /** **Every deadline was given**: over any run, the deadline a book holds a
      machine to, on both clocks, is a listing ask plus T, or a resumed entry's. */
  lemma {:induction false} EveryDeadlineWasGiven(events: seq<Event>, n: nat, id: string)
    requires n <= |events| && id in Through(events, n)
    ensures GivenBy(events, n, id, Through(events, n)[id].deadline, Through(events, n)[id].wall)
  {
    var before, l := Through(events, n - 1), Through(events, n)[id];
    OneEvent(before, events[n - 1], id);
    if !Gives(events[n - 1], id, l.deadline, l.wall) {
      EveryDeadlineWasGiven(events, n - 1, id);
    }
    GivenLater(events, n, id, l.deadline, l.wall);
  }

  /** **What the file says was given too**: each entry written after any run is, in
      whole seconds, the wall clock of a listing ask plus T, or a resumed entry's. */
  lemma EveryEntryWasGiven(events: seq<Event>, n: nat, i: nat)
    requires n <= |events| && i < |FileBody(Through(events, n))|
    ensures var w := FileBody(Through(events, n))[i];
            exists deadline, wall :: GivenBy(events, n, w.id, deadline, wall) && w.until == if wall < 0 then 0 else wall / SECOND
  {
    var w := FileBody(Through(events, n))[i];
    EveryDeadlineWasGiven(events, n, w.id);
    assert GivenBy(events, n, w.id, Through(events, n)[w.id].deadline, Through(events, n)[w.id].wall);
  }
}
