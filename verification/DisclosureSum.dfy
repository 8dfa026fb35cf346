/**
 What disclosure promises over a whole survey (`src/disclosure.rs:90-148`): any
 guests, listed in any order and split between any listings.
 */
module DisclosureSum {
  import opened Wrappers
  import opened Order
  import opened Disclosure

  /** The use of every guest observed, or nothing when one was refused. */
  function Total(gs: seq<Guest>, size: SizeOf): Option<Use> {
    if gs == [] then Some(NONE)
    else
      var before, last := Total(gs[..|gs| - 1], size), Takes(gs[|gs| - 1], size);
      if before.None? || last.Err? then None else Some(Plus(before.value, last.value))
  }

  function Both(a: Option<Use>, b: Option<Use>): Option<Use> {
    if a.None? || b.None? then None else Some(Plus(a.value, b.value))
  }

  lemma MergedCommutes(a: map<string, nat>, b: map<string, nat>)
    ensures Merged(a, b) == Merged(b, a)
  {
  }

  lemma MergedAssociates(a: map<string, nat>, b: map<string, nat>, c: map<string, nat>)
    ensures Merged(Merged(a, b), c) == Merged(a, Merged(b, c))
  {
    var ab, bc := Merged(a, b), Merged(b, c);
    MergedOnly(ab, a, b);
    MergedOnly(bc, b, c);
    forall s ensures On(Merged(a, bc), s) == On(ab, s) + On(c, s) {
      assert On(ab, s) == On(a, s) + On(b, s) && On(bc, s) == On(b, s) + On(c, s);
    }
    MergedOnly(Merged(a, bc), ab, c);
  }

  lemma PlusIsAnySum(a: Use, b: Use, c: Use)
    ensures Plus(a, b) == Plus(b, a)
    ensures Plus(Plus(a, b), c) == Plus(a, Plus(b, c))
    ensures Plus(a, NONE) == a
  {
    MergedCommutes(a.disk, b.disk);
    MergedAssociates(a.disk, b.disk, c.disk);
    MergedOnly(a.disk, a.disk, map[]);
  }

  lemma BothIsAnySum(a: Option<Use>, b: Option<Use>, c: Option<Use>)
    ensures Both(a, b) == Both(b, a)
    ensures Both(Both(a, b), c) == Both(a, Both(b, c))
    ensures Both(a, Some(NONE)) == a
  {
    if a.Some? {
      PlusIsAnySum(a.value, if b.Some? then b.value else NONE, if c.Some? then c.value else NONE);
    }
    if b.Some? {
      PlusIsAnySum(b.value, if a.Some? then a.value else NONE, NONE);
    }
  }

  function OfOne(g: Guest, size: SizeOf): Option<Use> {
    if Takes(g, size).Ok? then Some(Takes(g, size).value) else None
  }

  lemma OneMore(gs: seq<Guest>, g: Guest, size: SizeOf)
    ensures Total(gs + [g], size) == Both(Total(gs, size), OfOne(g, size))
  {
    assert (gs + [g])[..|gs|] == gs;
  }

  /** **However the listings are split**: two listings' uses added are the use
      of one listing of all their guests. */
  lemma {:induction false} AnySplitIsTheSame(a: seq<Guest>, b: seq<Guest>, size: SizeOf)
    ensures Total(a + b, size) == Both(Total(a, size), Total(b, size))
  {
    if b == [] {
      assert a + b == a;
      BothIsAnySum(Total(a, size), None, None);
    } else {
      var init, last := b[..|b| - 1], b[|b| - 1];
      AnySplitIsTheSame(a, init, size);
      assert a + b == (a + init) + [last] && b == init + [last];
      OneMore(a + init, last, size);
      OneMore(init, last, size);
      BothIsAnySum(Total(a, size), Total(init, size), OfOne(last, size));
    }
  }

  lemma OneTakenOut<T>(init: seq<T>, x: T, before: seq<T>, after: seq<T>)
    requires multiset(init + [x]) == multiset((before + [x]) + after)
    ensures multiset(init) == multiset(before + after)
  {
    assert multiset(init) == multiset(init + [x]) - multiset{x};
    assert multiset(before + after) == multiset((before + [x]) + after) - multiset{x};
  }

  /** **Whatever order they are listed in.** */
  lemma {:induction false} AnyOrderIsTheSame(a: seq<Guest>, b: seq<Guest>, size: SizeOf)
    requires multiset(a) == multiset(b)
    ensures Total(a, size) == Total(b, size)
  {
    if a == [] {
      assert |multiset(b)| == |b|;
      assert |multiset(a)| == 0;
    } else {
      var init, last := a[..|a| - 1], a[|a| - 1];
      assert a == init + [last];
      assert last in multiset(b);
      var i :| 0 <= i < |b| && b[i] == last;
      var before, after := b[..i], b[i + 1..];
      assert b == (before + [last]) + after;
      OneTakenOut(init, last, before, after);
      AnyOrderIsTheSame(init, before + after, size);
      MovedToTheEnd(before, last, after, size);
      OneMore(init, last, size);
    }
  }

  lemma MovedToTheEnd(before: seq<Guest>, g: Guest, after: seq<Guest>, size: SizeOf)
    ensures Total((before + [g]) + after, size) == Both(Total(before + after, size), OfOne(g, size))
  {
    AnySplitIsTheSame(before + [g], after, size);
    OneMore(before, g, size);
    AnySplitIsTheSame(before, after, size);
    var x, y, z := Total(before, size), OfOne(g, size), Total(after, size);
    BothIsAnySum(x, y, z);
    BothIsAnySum(y, z, None);
    BothIsAnySum(x, z, y);
  }

  // ---- The sell bound ----

  function Min(a: int, b: int): int {
    if a <= b then a else b
  }

  function Max(a: int, b: int): int {
    if a >= b then a else b
  }

  /** **What may still be sold is exact**: of the slice reported, what is left is
      the slice or what the owner leaves of the host, the smaller, exactly when
      no more is reported than the host has or the owner takes the slice. */
  lemma TheRestIsExact(owner: nat, host: nat, reported: nat)
    ensures Intrusion(owner, host, reported) <= reported
    ensures reported - Intrusion(owner, host, reported) == Min(reported, Max(0, host - owner)) <==>
            reported <= host || owner >= reported
  {
  }

  /** **Both fit**: the owner and whatever is sold of the rest. */
  lemma OwnerAndSoldFit(owner: nat, host: nat, reported: nat, sold: nat)
    requires reported <= host && sold <= reported - Intrusion(owner, host, reported)
    ensures owner <= host ==> owner + sold <= host
    ensures owner > host ==> sold == 0
  {
  }

  /** The cast to 32 bits loses nothing of a slice counted in 32 bits. */
  lemma TheCastLosesNothing(owner: nat, host: nat, reported: nat)
    requires reported < U32
    ensures Intrusion(owner, host, reported) % U32 == Intrusion(owner, host, reported)
  {
  }

  // ---- Disk, storage by storage ----

  /** The first `n` keys the disk has. */
  function Present(disk: map<string, nat>, all: seq<string>, n: nat): seq<string>
    requires n <= |all|
  {
    if n == 0 then [] else Present(disk, all, n - 1) + if all[n - 1] in disk then [all[n - 1]] else []
  }

  lemma {:induction false} SumOfFirst(disk: map<string, nat>, storages: set<string>, a: seq<string>, b: seq<string>, n: nat)
    requires n <= |a|
    ensures Sum(disk, storages, a + b, n) == Sum(disk, storages, a, n)
  {
    if n > 0 {
      SumOfFirst(disk, storages, a, b, n - 1);
    }
  }

  lemma {:induction false} SumOfPresent(disk: map<string, nat>, storages: set<string>, all: seq<string>, n: nat)
    requires n <= |all|
    ensures Sum(disk, storages, all, n) == Sum(disk, storages, Present(disk, all, n), |Present(disk, all, n)|)
  {
    if n > 0 {
      var before := Present(disk, all, n - 1);
      SumOfPresent(disk, storages, all, n - 1);
      SumOfFirst(disk, storages, before, [all[n - 1]], |before|);
      assert Present(disk, all, n) == if all[n - 1] in disk then before + [all[n - 1]] else before;
    }
  }

  lemma {:induction false} PresentAre(disk: map<string, nat>, all: seq<string>, n: nat)
    requires n <= |all|
    ensures forall x :: x in Present(disk, all, n) <==> x in disk && exists i :: 0 <= i < n && all[i] == x
  {
    if n > 0 {
      PresentAre(disk, all, n - 1);
    }
  }

  lemma {:induction false} PresentAscends(disk: map<string, nat>, all: seq<string>, n: nat)
    requires n <= |all| && Ascending(all)
    ensures Ascending(Present(disk, all, n))
  {
    if n > 0 {
      var before := Present(disk, all, n - 1);
      PresentAscends(disk, all, n - 1);
      PresentAre(disk, all, n - 1);
      forall i | 0 <= i < |before| ensures Less(before[i], all[n - 1]) {
        assert before[i] in before;
      }
    }
  }

  lemma {:induction false} SumOfBoth(a: map<string, nat>, b: map<string, nat>, storages: set<string>, keys: seq<string>, n: nat)
    requires n <= |keys|
    ensures Sum(Merged(a, b), storages, keys, n) == Sum(a, storages, keys, n) + Sum(b, storages, keys, n)
  {
    if n > 0 {
      SumOfBoth(a, b, storages, keys, n - 1);
    }
  }

  lemma SumOverAll(disk: map<string, nat>, storages: set<string>, all: seq<string>)
    requires Ascending(all) && forall s :: s in disk ==> s in all
    ensures DiskOn(disk, storages) == Sum(disk, storages, all, |all|)
  {
    var present := Present(disk, all, |all|);
    PresentAre(disk, all, |all|);
    PresentAscends(disk, all, |all|);
    SumOfPresent(disk, storages, all, |all|);
    AscendingIsUnique(Sorted(disk.Keys), present);
  }

  lemma DiskOfBoth(a: map<string, nat>, b: map<string, nat>, storages: set<string>)
    ensures DiskOn(Merged(a, b), storages) == DiskOn(a, storages) + DiskOn(b, storages)
  {
    var all := Sorted(a.Keys + b.Keys);
    assert Merged(a, b).Keys == a.Keys + b.Keys;
    SumOverAll(a, storages, all);
    SumOverAll(b, storages, all);
    SumOfBoth(a, b, storages, all, |all|);
  }

  /** What of each resource may still be sold. */
  function Rest(u: Use, node: Node, storages: set<string>): Figures {
    Figures(SaturatingSub(node.reported.cpu, Intrusion(u.cores, node.host.cpu, node.reported.cpu)),
            SaturatingSub(node.reported.memory, Intrusion(u.memory, node.host.memory, node.reported.memory)),
            SaturatingSub(node.reported.disk, Intrusion(DiskOn(u.disk, storages), node.host.disk, node.reported.disk)))
  }

  lemma IntrusionGrows(owner: nat, more: nat, host: nat, reported: nat)
    ensures Intrusion(owner, host, reported) <= Intrusion(owner + more, host, reported) <= Intrusion(owner, host, reported) + more
  {
  }

  /** `now` is no more than `was`, and less by no more than `took` and `disk`. */
  predicate FallsBy(was: Figures, now: Figures, took: Use, disk: nat) {
    && was.cpu - took.cores <= now.cpu <= was.cpu
    && was.memory - took.memory <= now.memory <= was.memory
    && was.disk - disk <= now.disk <= was.disk
  }

  lemma TheRestFalls(u: Use, took: Use, node: Node, storages: set<string>)
    ensures FallsBy(Rest(u, node, storages), Rest(Plus(u, took), node, storages), took, DiskOn(took.disk, storages))
  {
    DiskOfBoth(u.disk, took.disk, storages);
    IntrusionGrows(u.cores, took.cores, node.host.cpu, node.reported.cpu);
    IntrusionGrows(u.memory, took.memory, node.host.memory, node.reported.memory);
    IntrusionGrows(DiskOn(u.disk, storages), DiskOn(took.disk, storages), node.host.disk, node.reported.disk);
  }

  /** **A further guest never raises what may be sold**, of any resource, and
      takes no more of the slice than it uses. */
  lemma AFurtherGuestNeverRaisesTheRest(gs: seq<Guest>, g: Guest, size: SizeOf, node: Node, storages: set<string>)
    requires Total(gs + [g], size).Some?
    ensures Total(gs, size).Some? && Takes(g, size).Ok?
    ensures var took := Takes(g, size).value;
            FallsBy(Rest(Total(gs, size).value, node, storages), Rest(Total(gs + [g], size).value, node, storages),
                    took, DiskOn(took.disk, storages))
  {
    OneMore(gs, g, size);
    TheRestFalls(Total(gs, size).value, Takes(g, size).value, node, storages);
  }

  // ---- Rounding ----

  predicate IsUp(g: Guest) {
    g.status == Some("running") || g.status == Some("paused")
  }

  function Running(gs: seq<Guest>): nat {
    if gs == [] then 0 else Running(gs[..|gs| - 1]) + if IsUp(gs[|gs| - 1]) then 1 else 0
  }

  /** One guest's vCPUs and MiB, unrounded, if it runs. */
  function ExactOf(g: Guest): (real, real) {
    if IsUp(g) && g.cpus.Some? && g.maxmem.Some? then (g.cpus.value, g.maxmem.value / MIB) else (0.0, 0.0)
  }

  function Exact(gs: seq<Guest>): (real, real) {
    if gs == [] then (0.0, 0.0)
    else
      var before, last := Exact(gs[..|gs| - 1]), ExactOf(gs[|gs| - 1]);
      (before.0 + last.0, before.1 + last.1)
  }

  lemma OneIsRoundedByLessThanOne(g: Guest, size: SizeOf)
    requires Takes(g, size).Ok?
    ensures var took, exact := Takes(g, size).value, ExactOf(g);
            && (if IsUp(g) then exact.0 <= took.cores as real < exact.0 + 1.0 && exact.1 <= took.memory as real < exact.1 + 1.0
                else exact.0 == took.cores as real == 0.0 && exact.1 == took.memory as real == 0.0)
            && took.guests == 1
  {
  }

  /** `whole` is `exact` rounded up by less than one each for `n`, or nothing. */
  predicate RoundsUp(exact: real, whole: nat, n: nat) {
    if n == 0 then exact == whole as real == 0.0 else exact <= whole as real < exact + n as real
  }

  lemma RoundsUpOneMore(exact: real, whole: nat, n: nat, one: real, took: nat, up: bool)
    requires RoundsUp(exact, whole, n)
    requires if up then one <= took as real < one + 1.0 else one == took as real == 0.0
    ensures RoundsUp(exact + one, whole + took, if up then n + 1 else n)
  {
  }

  /** **Rounded up, by less than one for each running guest.** */
  lemma {:induction false} RoundedByLessThanOneEach(gs: seq<Guest>, size: SizeOf)
    requires Total(gs, size).Some?
    ensures RoundsUp(Exact(gs).0, Total(gs, size).value.cores, Running(gs))
    ensures RoundsUp(Exact(gs).1, Total(gs, size).value.memory, Running(gs))
    ensures Total(gs, size).value.guests == |gs|
  {
    if gs != [] {
      var init, last := gs[..|gs| - 1], gs[|gs| - 1];
      assert gs == init + [last];
      OneMore(init, last, size);
      RoundedByLessThanOneEach(init, size);
      OneIsRoundedByLessThanOne(last, size);
      var u, took := Total(init, size).value, Takes(last, size).value;
      RoundsUpOneMore(Exact(init).0, u.cores, Running(init), ExactOf(last).0, took.cores, IsUp(last));
      RoundsUpOneMore(Exact(init).1, u.memory, Running(init), ExactOf(last).1, took.memory, IsUp(last));
      assert Total(gs, size).value == Plus(u, took);
    }
  }

  lemma ARestIsExact(u: Use, node: Node, storages: set<string>)
    requires node.reported.cpu <= node.host.cpu && node.reported.memory <= node.host.memory && node.reported.disk <= node.host.disk
    ensures Rest(u, node, storages) ==
            Figures(Min(node.reported.cpu, Max(0, node.host.cpu - u.cores)),
                    Min(node.reported.memory, Max(0, node.host.memory - u.memory)),
                    Min(node.reported.disk, Max(0, node.host.disk - DiskOn(u.disk, storages))))
  {
    TheRestIsExact(u.cores, node.host.cpu, node.reported.cpu);
    TheRestIsExact(u.memory, node.host.memory, node.reported.memory);
    TheRestIsExact(DiskOn(u.disk, storages), node.host.disk, node.reported.disk);
  }

  /** **One survey, exactly**: for guests in any order and any split, with no
      more reported than the host has, what may be sold of each resource is the
      slice or what the owner leaves of the host, the smaller. */
  lemma ASurveyIsExact(vms: seq<Guest>, containers: seq<Guest>, listed: seq<Guest>, size: SizeOf, node: Node, storages: set<string>)
    requires multiset(vms + containers) == multiset(listed)
    requires Total(vms, size).Some? && Total(containers, size).Some?
    requires node.reported.cpu <= node.host.cpu && node.reported.memory <= node.host.memory && node.reported.disk <= node.host.disk
    ensures Total(listed, size) == Some(Plus(Total(vms, size).value, Total(containers, size).value))
    ensures var u := Total(listed, size).value;
            Rest(u, node, storages) ==
              Figures(Min(node.reported.cpu, Max(0, node.host.cpu - u.cores)),
                      Min(node.reported.memory, Max(0, node.host.memory - u.memory)),
                      Min(node.reported.disk, Max(0, node.host.disk - DiskOn(u.disk, storages))))
    ensures DiskOn(Total(listed, size).value.disk, storages) ==
            DiskOn(Total(vms, size).value.disk, storages) + DiskOn(Total(containers, size).value.disk, storages)
  {
    AnySplitIsTheSame(vms, containers, size);
    AnyOrderIsTheSame(vms + containers, listed, size);
    ARestIsExact(Total(listed, size).value, node, storages);
    DiskOfBoth(Total(vms, size).value.disk, Total(containers, size).value.disk, storages);
  }
}
