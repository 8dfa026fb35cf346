/**
 One recovery pass over the clone journal (`src/instance.rs:1321-1574`), call
 by call, against the table its documentation gives. Nobody else acts during
 the pass; what may happen between calls is `CloneProtocol`'s.
 */
module Recovery {
  import opened Wrappers
  import opened CloneJournal

  /** What the hypervisor answers in this pass, VMID by VMID. */
  datatype Answers = Answers(
    listed: set<nat>,        // the cluster's listing
    tasks: map<nat, Task>,   // the clone task's end; absent when it could not be seen
    configs: set<nat>,       // the configuration, read to tell whose it is
    claims: set<nat>,        // the claim put on before the removal
    written: set<nat>,       // the record written Abandoned
    torn: set<nat>,          // else, the rewrite failed after its truncation
    proofs: set<nat>,        // the configuration, read again by the rollback
    destroyed: set<nat>,     // the destroy, seen to end well
    looked: set<nat>,        // the record's volumes looked for
    stuck: set<string>       // the volumes that stay when asked to go
  )

  function Listed(vms: map<nat, Vm>, v: nat): Option<Vm> {
    if v in vms && vms[v].listed then Some(vms[v]) else None
  }

  // ---- The table of `recover_pending` ----

  datatype Verdict =
    | Wait        // kept, and asked again next pass
    | Forget      // the record goes, and what is there stays
    | Count       // nothing at the number: the record goes when no volume is left
    | Undo        // the rollback, asked for again
    | Reclaim     // claimed, then the rollback

  function Judged(vms: map<nat, Vm>, a: Answers, v: nat, rec: Pending): Verdict {
    match (rec.stage, Listed(vms, v))
    case (Abandoned, None) => if v in a.listed then Count else Wait
    case (Abandoned, Some(_)) => if v in a.listed then Undo else Wait
    case (Cloning, there) =>
      if rec.upid && Lookup(a.tasks, v) !in {Some(EndedWell), Some(EndedBadly)} then Wait
      else if v !in a.listed then Wait
      else if there.None? then Forget
      else if there.value.tags != Untagged || !rec.upid || Lookup(a.tasks, v) != Some(EndedWell) then Forget
      else if v !in a.configs then Wait
      else if there.value.pooled && there.value.stamp == Some(rec.id) then (if v in a.claims then Reclaim else Wait)
      else Forget
  }

  /** The volumes a rolled-back record names that are still on their storage. */
  function Left(storage: set<string>, a: Answers, rec: Pending): set<string> {
    rec.volids * storage * a.stuck
  }

  /** A rollback takes the guest: its stamp was read, and its destroy ended well. */
  predicate Taken(vms: map<nat, Vm>, a: Answers, v: nat, rec: Pending) {
    v in vms && v in a.proofs && vms[v].stamp == Some(rec.id) && v in a.destroyed
  }

  /** A rollback ends its record: another's stamp is there, or the guest is gone
      and so is every volume. */
  predicate Ends(vms: map<nat, Vm>, storage: set<string>, a: Answers, v: nat, rec: Pending) {
    && v in vms && v in a.proofs
    && (vms[v].stamp == Some(rec.id) ==> v in a.destroyed && v in a.looked && Left(storage, a, rec) == {})
  }

  /** The record once the pass is over, if it is still there. */
  function RecordAfter(vms: map<nat, Vm>, storage: set<string>, a: Answers, v: nat, rec: Pending): Option<Pending> {
    match Judged(vms, a, v, rec)
    case Wait => Some(rec)
    case Forget => None
    case Count => if v in a.looked && Left(storage, a, rec) == {} then None else Some(rec)
    case _ =>
      if Ends(vms, storage, a, v, rec) then None
      else if v in a.written then Some(rec.(stage := Abandoned))
      else if v in a.torn then None
      else Some(rec)
  }

  /** What is at the record's number once the pass is over. */
  function VmAfter(vms: map<nat, Vm>, a: Answers, v: nat, rec: Pending): Option<Vm> {
    var verdict := Judged(vms, a, v, rec);
    if !verdict.Undo? && !verdict.Reclaim? then Lookup(vms, v)
    else if Taken(vms, a, v, rec) then None
    else if v !in vms then None
    else
      var vm := if verdict.Reclaim? then vms[v].(tags := Claim(rec.id)) else vms[v];
      Some(if v in a.proofs && vms[v].stamp == Some(rec.id) then vm.(running := false) else vm)
  }

  /** The volumes the settling of one record removes. */
  function Freed(vms: map<nat, Vm>, a: Answers, v: nat, rec: Pending): set<string> {
    var verdict := Judged(vms, a, v, rec);
    if verdict.Count? && v in a.looked then rec.volids - a.stuck
    else if (verdict.Undo? || verdict.Reclaim?) && Taken(vms, a, v, rec) then
      (vms[v].volumes - a.stuck) + (if v in a.looked then rec.volids - a.stuck else {})
    else {}
  }

  // ---- The pass itself ----

  class Agent {
    var vms: map<nat, Vm>
    var storage: set<string>
    var journal: map<nat, Pending>

    /** The volumes named that are still on their storage after being asked to
        go once more; none when a listing could not be made. */
    method CloneVolumesLeft(a: Answers, v: nat, rec: Pending) returns (left: Option<set<string>>)
      modifies this`storage
      ensures left == if v in a.looked then Some(Left(old(storage), a, rec)) else None
      ensures storage == if v in a.looked then old(storage) - (rec.volids - a.stuck) else old(storage)
    {
      if v !in a.looked {
        return None;
      }
      storage := storage - (rec.volids - a.stuck);
      left := Some(rec.volids * storage);
      assert rec.volids * storage == Left(old(storage), a, rec);
    }

    /** Takes away a clone this agent made and could not finish, and says whether
        it is gone. The record says so before anything is asked for; one that
        could not be written whole can be read no more, and the rest goes on. */
    method AbandonClone(a: Answers, v: nat, rec: Pending) returns (gone: bool)
      modifies this
      ensures gone <==> Taken(old(vms), a, v, rec) && v in a.looked && Left(old(storage), a, rec) == {}
      ensures vms == if Taken(old(vms), a, v, rec) then old(vms) - {v}
                     else if v in old(vms) && v in a.proofs && old(vms)[v].stamp == Some(rec.id) then old(vms)[v := old(vms)[v].(running := false)]
                     else old(vms)
      ensures journal == if Ends(old(vms), old(storage), a, v, rec) then old(journal) - {v}
                         else if v in a.written then old(journal)[v := rec.(stage := Abandoned)]
                         else if v in a.torn then old(journal) - {v}
                         else old(journal)
      ensures storage == if Taken(old(vms), a, v, rec)
                         then old(storage) - (old(vms)[v].volumes - a.stuck) - (if v in a.looked then rec.volids - a.stuck else {})
                         else old(storage)
    {
      if v in a.written {
        journal := journal[v := rec.(stage := Abandoned)];
      } else if v in a.torn {
        journal := journal - {v};
      }
      if v !in vms || v !in a.proofs {
        return false;
      }
      if vms[v].stamp != Some(rec.id) {
        journal := journal - {v};
        return false;
      }
      vms := vms[v := vms[v].(running := false)];
      if v !in a.destroyed {
        return false;
      }
      storage := storage - (vms[v].volumes - a.stuck);
      vms := vms - {v};
      label destroyed:
      assert rec.volids * storage * a.stuck == rec.volids * old(storage) * a.stuck;
      var left := CloneVolumesLeft(a, v, rec);
      gone := left == Some({});
      if gone {
        journal := journal - {v};
      }
    }

    /** One record settled. */
    method Settle(a: Answers, v: nat)
      requires v in journal
      modifies this
      ensures Lookup(journal, v) == RecordAfter(old(vms), old(storage), a, v, old(journal)[v])
      ensures Lookup(vms, v) == VmAfter(old(vms), a, v, old(journal)[v])
      ensures forall w :: w != v ==> Lookup(journal, w) == Lookup(old(journal), w) && Lookup(vms, w) == Lookup(old(vms), w)
      ensures storage == old(storage) - Freed(old(vms), a, v, old(journal)[v])
    {
      var rec := journal[v];
      if rec.stage == Abandoned {
        if v in a.listed {
          if Listed(vms, v).None? {
            var left := CloneVolumesLeft(a, v, rec);
            if left == Some({}) {
              journal := journal - {v};
            }
          } else {
            var _ := AbandonClone(a, v, rec);
          }
        }
        return;
      }
      var cloned := false;
      if rec.upid {
        if v !in a.tasks || a.tasks[v] == StillRuns {
          return;
        }
        cloned := a.tasks[v] == EndedWell;
      }
      if v !in a.listed {
        return;
      }
      if Listed(vms, v).None? {
        journal := journal - {v};
        return;
      }
      var vm := vms[v];
      if vm.tags == Claim(rec.id) {
        journal := journal - {v};
        return;
      }
      var stamped := false;
      if cloned && vm.tags == Untagged {
        if v !in a.configs {
          return;
        }
        stamped := vm.pooled && vm.stamp == Some(rec.id);
      }
      if !stamped {
        journal := journal - {v};
        return;
      }
      if v !in a.claims {
        return;
      }
      vms := vms[v := vm.(tags := Claim(rec.id))];
      var _ := AbandonClone(a, v, rec);
    }

    /** Every record of the journal, lowest number first. */
    method RecoverPending(a: Answers)
      modifies this
      ensures Through(World(old(vms), old(storage), old(journal)), a, old(journal).Keys, World(vms, storage, journal))
    {
      var entries := Numbers(journal.Keys);
      ghost var was := World(vms, storage, journal);
      ghost var done: set<nat> := {};
      var i := 0;
      while i < |entries|
        invariant 0 <= i <= |entries|
        invariant forall k :: 0 <= k < |entries| ==> entries[k] in was.journal && (entries[k] in done <==> k < i)
        invariant Through(was, a, done, World(vms, storage, journal))
      {
        var v := entries[i];
        ghost var before := World(vms, storage, journal);
        SameHere(was, a, done, before, v);
        Settle(a, v);
        OneMore(was, a, done, before, v, World(vms, storage, journal));
        done := done + {v};
        i := i + 1;
      }
      AllDone(was, a, done, entries, World(vms, storage, journal));
    }
  }

  datatype World = World(vms: map<nat, Vm>, storage: set<string>, journal: map<nat, Pending>)

  /** The records of `done` settled, the others not begun. */
  ghost predicate Through(was: World, a: Answers, done: set<nat>, now: World) {
    && (forall v :: v in done ==> v in was.journal)
    && (forall v :: Lookup(now.journal, v) ==
          if v in done then RecordAfter(was.vms, was.storage, a, v, was.journal[v]) else Lookup(was.journal, v))
    && (forall v :: Lookup(now.vms, v) == if v in done then VmAfter(was.vms, a, v, was.journal[v]) else Lookup(was.vms, v))
    && (forall x :: x in now.storage <==>
          x in was.storage && forall v :: v in done ==> x !in Freed(was.vms, a, v, was.journal[v]))
  }

  lemma OneMore(was: World, a: Answers, done: set<nat>, before: World, v: nat, now: World)
    requires Through(was, a, done, before) && v in was.journal && v !in done
    requires Lookup(now.journal, v) == RecordAfter(was.vms, was.storage, a, v, was.journal[v])
    requires Lookup(now.vms, v) == VmAfter(was.vms, a, v, was.journal[v])
    requires forall w :: w != v ==>
               Lookup(now.journal, w) == Lookup(before.journal, w) && Lookup(now.vms, w) == Lookup(before.vms, w)
    requires now.storage == before.storage - Freed(was.vms, a, v, was.journal[v])
    ensures Through(was, a, done + {v}, now)
  {
  }

  lemma AllDone(was: World, a: Answers, done: set<nat>, entries: seq<nat>, now: World)
    requires Through(was, a, done, now)
    requires forall v :: v in entries <==> v in was.journal
    requires forall k :: 0 <= k < |entries| ==> entries[k] in done
    ensures Through(was, a, was.journal.Keys, now)
  {
    assert forall v :: v in was.journal <==> v in done;
    assert done == was.journal.Keys;
  }

  /** What is settled at a number depends on nothing at another; of the volumes,
      only on those that stay whoever asks. */
  lemma SameHere(was: World, a: Answers, done: set<nat>, now: World, v: nat)
    requires Through(was, a, done, now) && v in was.journal && v !in done
    ensures v in now.journal && now.journal[v] == was.journal[v]
    ensures var rec := was.journal[v];
            && RecordAfter(now.vms, now.storage, a, v, rec) == RecordAfter(was.vms, was.storage, a, v, rec)
            && VmAfter(now.vms, a, v, rec) == VmAfter(was.vms, a, v, rec)
            && Freed(now.vms, a, v, rec) == Freed(was.vms, a, v, rec)
  {
    assert Lookup(now.journal, v) == Lookup(was.journal, v) && Lookup(now.vms, v) == Lookup(was.vms, v);
    assert Left(now.storage, a, was.journal[v]) == Left(was.storage, a, was.journal[v]);
  }

  predicate IsLeast(m: nat, s: set<nat>) {
    m in s && forall x :: x in s ==> m <= x
  }

  lemma LeastExists(s: set<nat>)
    requires s != {}
    ensures exists m :: IsLeast(m, s)
  {
    var x :| x in s;
    if s == {x} {
      assert IsLeast(x, s);
    } else {
      LeastExists(s - {x});
      var m :| IsLeast(m, s - {x});
      forall y | y in s ensures (if m < x then m else x) <= y {
        if y != x { assert y in s - {x}; }
      }
      assert IsLeast(if m < x then m else x, s);
    }
  }

  function Numbers(s: set<nat>): (r: seq<nat>)
    ensures forall x :: x in r <==> x in s
    ensures forall i, j :: 0 <= i < j < |r| ==> r[i] < r[j]
  {
    if s == {} then []
    else
      LeastExists(s);
      var m :| IsLeast(m, s);
      [m] + Numbers(s - {m})
  }

  // ---- What the table promises ----

  /** Every read about this record is answered, its clone task has ended, its
      destroy succeeds and every volume goes. */
  predicate AllGood(a: Answers, v: nat) {
    && v in a.listed && v in a.configs && v in a.claims && v in a.proofs && v in a.destroyed && v in a.looked
    && Lookup(a.tasks, v) in {Some(EndedWell), Some(EndedBadly)} && a.stuck == {}
  }

  /** **Recovery makes progress**: a record about which everything is answered
      goes, none is added, and a pass in which that is every record leaves an
      empty journal. */
  lemma ProgressIsMade(was: World, a: Answers, now: World)
    requires Through(was, a, was.journal.Keys, now)
    ensures now.journal.Keys <= was.journal.Keys
    ensures forall v :: v in was.journal && AllGood(a, v) ==> v !in now.journal
    ensures (forall v :: v in was.journal ==> AllGood(a, v)) ==> now.journal == map[]
    ensures |now.journal| <= |was.journal|
    ensures (exists v :: v in was.journal && AllGood(a, v)) ==> |now.journal| < |was.journal|
  {
    forall v ensures v in now.journal ==> v in was.journal && !AllGood(a, v) {
      assert Lookup(now.journal, v) ==
             if v in was.journal then RecordAfter(was.vms, was.storage, a, v, was.journal[v]) else None;
    }
    Smaller(now.journal.Keys, was.journal.Keys);
    assert |now.journal| == |now.journal.Keys| && |was.journal| == |was.journal.Keys|;
  }

  /** The table itself ends the record: nothing of its clone is owed any more. */
  predicate IsSettled(was: World, a: Answers, v: nat, rec: Pending) {
    match Judged(was.vms, a, v, rec)
    case Wait => false
    case Forget => true
    case Count => v in a.looked && Left(was.storage, a, rec) == {}
    case _ => Ends(was.vms, was.storage, a, v, rec)
  }

  /** **What a pass drops**: a record it settled, and one whose rollback was asked
      for again, did not end it, and tore it. */
  lemma WhatAPassDrops(was: World, a: Answers, now: World, v: nat)
    requires Through(was, a, was.journal.Keys, now) && v in was.journal
    ensures var rec := was.journal[v];
            v !in now.journal <==>
              || IsSettled(was, a, v, rec)
              || (v in a.torn && v !in a.written && (Judged(was.vms, a, v, rec).Undo? || Judged(was.vms, a, v, rec).Reclaim?))
  {
    assert Lookup(now.journal, v) == RecordAfter(was.vms, was.storage, a, v, was.journal[v]);
  }

  // ---- What a pass may leave, said of what is there ----

  /** The rewrite of a record of which a rollback is asked for again was torn. */
  predicate IsTorn(a: Answers, v: nat) {
    v in a.torn && v !in a.written
  }

  lemma AtOneNumber(was: World, a: Answers, now: World, v: nat)
    requires Through(was, a, was.journal.Keys, now) && v in was.journal
    ensures Lookup(now.journal, v) == RecordAfter(was.vms, was.storage, a, v, was.journal[v])
    ensures Lookup(now.vms, v) == VmAfter(was.vms, a, v, was.journal[v])
    ensures now.storage !! Freed(was.vms, a, v, was.journal[v]) && now.storage <= was.storage
  {
    assert v in was.journal.Keys;
  }

  /** **An owed rollback stands while its machine does**: a listed guest that carries
      the record's stamp still has its record, unless that was torn. */
  lemma AnOwedRollbackStands(was: World, a: Answers, now: World, v: nat)
    requires Through(was, a, was.journal.Keys, now) && v in was.journal && was.journal[v].stage == Abandoned
    requires v in was.vms && was.vms[v].listed
    ensures v in now.vms && now.vms[v].stamp == Some(was.journal[v].id) ==>
              IsTorn(a, v) || (v in now.journal && now.journal[v] == was.journal[v])
  {
    AtOneNumber(was, a, now, v);
  }

  /** **And is done when everything is answered**: the machine is gone, its volumes
      and the record's are gone, and so is the record. */
  lemma AnAnsweredRollbackIsDone(was: World, a: Answers, now: World, v: nat)
    requires Through(was, a, was.journal.Keys, now) && v in was.journal && was.journal[v].stage == Abandoned
    requires v in was.vms && was.vms[v].listed && was.vms[v].stamp == Some(was.journal[v].id) && AllGood(a, v)
    ensures v !in now.vms && v !in now.journal
    ensures now.storage !! was.vms[v].volumes && now.storage !! was.journal[v].volids
  {
    AtOneNumber(was, a, now, v);
  }

  /** **A clone that is proven is taken back too, when everything is answered**: its
      task ended well, and it is untagged, in the pool and stamped. */
  lemma AProvenCloneIsTakenBack(was: World, a: Answers, now: World, v: nat)
    requires Through(was, a, was.journal.Keys, now) && v in was.journal && was.journal[v].stage == Cloning
    requires v in was.vms && was.vms[v].listed && AllGood(a, v)
    ensures v !in now.vms <==> IsProven(was.vms[v], was.journal[v], a, v)
    ensures v in now.vms ==> now.vms[v] == was.vms[v]
    ensures IsProven(was.vms[v], was.journal[v], a, v) ==>
              now.storage !! was.vms[v].volumes && now.storage !! was.journal[v].volids
  {
    AtOneNumber(was, a, now, v);
    var rec := was.journal[v];
    assert Judged(was.vms, a, v, rec) == if IsProven(was.vms[v], rec, a, v) then Reclaim else Forget;
    assert IsProven(was.vms[v], rec, a, v) ==> Freed(was.vms, a, v, rec) == was.vms[v].volumes + rec.volids;
  }

  /** What is at the number is this record's own clone. */
  predicate IsProven(vm: Vm, rec: Pending, a: Answers, v: nat) {
    && rec.upid && Lookup(a.tasks, v) == Some(EndedWell)
    && vm.tags == Untagged && vm.pooled && vm.stamp == Some(rec.id)
  }

  /** **What a record leaves on**: nothing listed at its number, and of a rollback no
      volume left; its claim seen; what is there not proven its clone; another's
      stamp read there; its machine gone, with every volume; or a torn rewrite. */
  lemma WhatARecordLeavesOn(was: World, a: Answers, now: World, v: nat)
    requires Through(was, a, was.journal.Keys, now) && v in was.journal && v !in now.journal && !IsTorn(a, v)
    ensures var rec, there := was.journal[v], v in was.vms && was.vms[v].listed;
            && v in a.listed
            && (!there ==> Lookup(now.vms, v) == Lookup(was.vms, v) && (rec.stage == Abandoned ==> now.storage !! rec.volids))
            && (there && v in now.vms && rec.stage == Abandoned ==> was.vms[v].stamp != Some(rec.id))
            && (there && v in now.vms && rec.stage == Cloning ==>
                  was.vms[v].tags == Claim(rec.id) || !IsProven(was.vms[v], rec, a, v))
            && (there && v !in now.vms ==> was.vms[v].stamp == Some(rec.id) && now.storage !! rec.volids)
  {
    AtOneNumber(was, a, now, v);
    forall x | x in now.storage && x in was.journal[v].volids && x !in Freed(was.vms, a, v, was.journal[v])
      ensures x in a.stuck ==> x in Left(was.storage, a, was.journal[v])
    {
    }
  }

  lemma Smaller<T>(a: set<T>, b: set<T>)
    requires a <= b
    ensures |a| <= |b|
    ensures a != b ==> |a| < |b|
  {
    assert b == a + (b - a);
    if a != b {
      assert b - a != {};
    }
  }

  /** **Only a record's own clone is touched.** A guest at no record's number, one
      without its record's stamp, and one carrying the claim of a clone's record
      are left exactly as they were. */
  lemma OthersAreLeft(was: World, a: Answers, now: World, v: nat)
    requires Through(was, a, was.journal.Keys, now) && v in was.vms
    requires v in was.journal ==>
               var rec := was.journal[v];
               was.vms[v].stamp != Some(rec.id) || (rec.stage == Cloning && was.vms[v].tags == Claim(rec.id))
    ensures v in now.vms && now.vms[v] == was.vms[v]
  {
    assert Lookup(now.vms, v) == if v in was.journal then VmAfter(was.vms, a, v, was.journal[v]) else Lookup(was.vms, v);
  }
}
