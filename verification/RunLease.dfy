/**
 The run lease's book (`src/lease.rs`): what each answered view does to the
 leases held, which machines are past their deadline, and the lease task's look.

 Times are nanoseconds. `at` is the process's monotonic clock, `wall` the
 wall clock counted from the epoch; both are plain integers.
 */
module RunLease {
  import opened Wrappers
  import opened Wire
  import opened LeaseHeader
  import opened Order

  const SECOND: int := 1_000_000_000

  /** When a view was asked for, on both clocks. */
  datatype Asked = Asked(at: int, wall: int)

  datatype Reading = Reading(asked: Asked, header: Option<string>)

  datatype Lease = Lease(deadline: int, wall: int, stopped: bool)

  type Leases = map<string, Lease>

  // ---- What one reading does, id by id ----

  function Told(r: Reading): Option<(nat, seq<string>)> {
    if r.header.None? then None else Parse(r.header.value)
  }

  predicate Lists(r: Reading, id: string) {
    Told(r).Some? && id in Told(r).value.1
  }

  /** The lease a reading gives every machine it lists: T counted from the ask. */
  function Given(r: Reading): (l: Lease)
    requires Told(r).Some?
    ensures l.deadline > r.asked.at && !l.stopped
  {
    var t := Told(r).value.0 * SECOND;
    Lease(r.asked.at + t, r.asked.wall + t, false)
  }

  /** What the view's naming of `id` leaves in the book, before anything ends. */
  ghost function Named(ls: Leases, r: Reading, specs: seq<InstanceSpec>, id: string): Option<Lease> {
    if !NamesRunning(specs, id) then Lookup(ls, id)
    else if !Lists(r, id) then None
    else if id in ls && ls[id].deadline > Given(r).deadline then Some(ls[id])
    else Some(Given(r))
  }

  /** Stopped, and past its deadline when the view was asked for. */
  predicate Spent(l: Lease, r: Reading) {
    l.stopped && l.deadline <= r.asked.at
  }

  /** `id` after the reading `r` of a view naming `specs`. */
  ghost function After(ls: Leases, r: Reading, specs: seq<InstanceSpec>, id: string): Option<Lease> {
    var l := Named(ls, r, specs, id);
    if l.Some? && Spent(l.value, r) && !Names(specs, id) then None else l
  }

  ghost function Applied(ls: Leases, r: Reading, specs: seq<InstanceSpec>): (after: Leases)
    ensures forall id :: Lookup(after, id) == After(ls, r, specs, id)
  {
    var named := set i | 0 <= i < |specs| :: specs[i].id;
    map id | id in ls.Keys + named && After(ls, r, specs, id).Some? :: After(ls, r, specs, id).value
  }

  // ---- What is read off the book ----

  /** Past its deadline and not yet stopped. */
  predicate Overdue(ls: Leases, id: string, now: int) {
    id in ls && !ls[id].stopped && ls[id].deadline <= now
  }

  function Expired(ls: Leases, now: int): seq<string> {
    Sorted(set id | id in ls && Overdue(ls, id, now))
  }

  /** Never once its lease ran out. */
  predicate MayRestart(ls: Leases, id: string, now: int) {
    id !in ls || ls[id].deadline > now
  }

  /** One lease as the file holds it. */
  datatype Written = Written(id: string, until: nat)

  /** Whole seconds since the epoch, a wall clock before it read as none. */
  function Unix(wall: int): nat {
    if wall < 0 then 0 else wall / SECOND
  }

  /** What the file is given: each lease's wall-clock deadline, sorted by id. */
  function FileBody(ls: Leases): (body: seq<Written>)
    ensures Ids(body) == Sorted(ls.Keys)
    ensures forall i :: 0 <= i < |body| ==> body[i].id in ls && body[i].until == Unix(ls[body[i].id].wall)
  {
    var ids := Sorted(ls.Keys);
    seq(|ids|, i requires 0 <= i < |ids| => assert ids[i] in ls; Written(ids[i], Unix(ls[ids[i]].wall)))
  }

  function Ids(body: seq<Written>): (ids: seq<string>)
    ensures |ids| == |body| && forall i :: 0 <= i < |body| ==> ids[i] == body[i].id
  {
    seq(|body|, i requires 0 <= i < |body| => body[i].id)
  }

  // ---- The lease task's look ----

  /** The book once each expired lease was stopped, where the stop was answered. */
  function Looked(ls: Leases, now: int, answered: set<string>): (after: Leases)
    ensures after.Keys == ls.Keys
  {
    map id | id in ls ::
      if ls[id].deadline <= now && id in answered then ls[id].(stopped := true) else ls[id]
  }

  // ---- Helpers ----

  lemma NamedOneMore(ls: Leases, r: Reading, specs: seq<InstanceSpec>, spec: InstanceSpec, id: string)
    ensures Named(ls, r, specs + [spec], id) ==
            var was := Named(ls, r, specs, id);
            if spec.id != id || spec.intent != Running then was
            else if !Lists(r, id) then None
            else if was.Some? && was.value.deadline > Given(r).deadline then was
            else Some(Given(r))
  {
    NamingOneMore(specs, spec);
  }

  lemma NamingOneMore(specs: seq<InstanceSpec>, spec: InstanceSpec)
    ensures forall id :: NamesRunning(specs + [spec], id) <==>
                         NamesRunning(specs, id) || (spec.id == id && spec.intent == Running)
  {
    var all := specs + [spec];
    forall id ensures NamesRunning(all, id) <==> NamesRunning(specs, id) || (spec.id == id && spec.intent == Running) {
      if NamesRunning(specs, id) {
        var i :| 0 <= i < |specs| && specs[i].id == id && specs[i].intent == Running;
        assert all[i] == specs[i];
      }
      if spec.id == id && spec.intent == Running {
        assert all[|specs|] == spec;
      }
    }
  }

  ghost function MarkedIn(ls: Leases, ids: set<string>): Leases {
    map id | id in ls :: if id in ids then ls[id].(stopped := true) else ls[id]
  }

  lemma LookedByEach(ls: Leases, done: set<string>, now: int, answered: set<string>)
    requires forall id :: id in done <==> id in Expired(ls, now)
    ensures MarkedIn(ls, done * answered) == Looked(ls, now, answered)
  {
    forall id | id in ls ensures MarkedIn(ls, done * answered)[id] == Looked(ls, now, answered)[id] {
      assert id in done <==> Overdue(ls, id, now);
    }
  }

  lemma SameEverywhere<K, V>(a: map<K, V>, b: map<K, V>)
    requires forall k :: Lookup(a, k) == Lookup(b, k)
    ensures a == b
  {
    forall k ensures k in a <==> k in b {
      assert Lookup(a, k) == Lookup(b, k);
    }
    forall k | k in a ensures a[k] == b[k] {
      assert Lookup(a, k) == Lookup(b, k);
    }
  }

  // ---- What a reading may and may not do ----

  /** **Kept.** A view that does not name `id` Running never moves its deadline;
      it ends the lease only when the machine was stopped past its deadline and
      the view does not name it at all. */
  lemma OnlyRunningMovesADeadline(ls: Leases, r: Reading, specs: seq<InstanceSpec>, id: string)
    requires !NamesRunning(specs, id)
    ensures id in Applied(ls, r, specs) ==> id in ls && Applied(ls, r, specs)[id] == ls[id]
    ensures id in ls ==>
              (id !in Applied(ls, r, specs) <==> ls[id].stopped && ls[id].deadline <= r.asked.at && !Names(specs, id))
  {
    assert Lookup(Applied(ls, r, specs), id) == After(ls, r, specs, id);
  }

  /** **Renewed.** A machine named Running and listed holds the lease it held, if
      that runs out later than the ask plus T, or else one that runs out at the
      ask plus T on both clocks and is not stopped; a machine named Running and
      not listed holds none. */
  lemma RunningRenewsOrReleases(ls: Leases, r: Reading, specs: seq<InstanceSpec>, id: string)
    requires NamesRunning(specs, id)
    ensures id in Applied(ls, r, specs) <==> Lists(r, id)
    ensures Lists(r, id) ==>
              var l, t := Applied(ls, r, specs)[id], Told(r).value.0 * SECOND;
              if id in ls && ls[id].deadline - r.asked.at > t then l == ls[id]
              else l.deadline - r.asked.at == l.wall - r.asked.wall == t && !l.stopped
  {
    assert Lookup(Applied(ls, r, specs), id) == After(ls, r, specs, id);
    assert Names(specs, id);
  }

  /** **Exactly one of three.** At any moment a held lease may be restarted, is
      past its deadline and to be stopped, or was stopped past its deadline,
      and the three readings of the book agree on which. */
  lemma OneOfThree(ls: Leases, id: string, now: int)
    requires id in ls
    ensures id in Expired(ls, now) <==> !MayRestart(ls, id, now) && !ls[id].stopped
    ensures forall answered :: id in Expired(Looked(ls, now, answered), now) <==>
                               id in Expired(ls, now) && id !in answered
    ensures forall answered :: MayRestart(Looked(ls, now, answered), id, now) == MayRestart(ls, id, now)
  {
  }

  /** A look marks the answered that are past their deadline, and changes nothing
      else of any lease. */
  lemma ALookOnlyMarks(ls: Leases, id: string, now: int, answered: set<string>)
    ensures id in Looked(ls, now, answered) <==> id in ls
    ensures id in ls ==>
              var l := Looked(ls, now, answered)[id];
              && l.deadline == ls[id].deadline && l.wall == ls[id].wall
              && (l.stopped <==> ls[id].stopped || (ls[id].deadline <= now && id in answered))
  {
  }
}
