/**
 The recovery pass and the protocol are one (`src/instance.rs:1321-1545`): what
 `Recovery` says a pass does with a record, call by call, is a run of
 `CloneProtocol` from the moment it takes the record up to the moment it is done
 with it. What every run keeps, the pass keeps.
 */
module RecoveryRun {
  import opened Wrappers
  import opened CloneJournal
  import opened CloneProtocol
  import opened CloneSafety
  import opened CloneGap
  import opened Recovery

  function Put<V>(m: map<nat, V>, v: nat, x: Option<V>): map<nat, V> {
    if x.Some? then m[v := x.value] else m - {v}
  }

  /** The agent between two calls, in a pass answered so. */
  function Of(w: World, a: Answers): State {
    State(w.vms, w.storage, a.tasks, w.journal, Idle)
  }

  /** What the table says is left of the world, one record settled. */
  function Settled(w: World, a: Answers, v: nat): World
    requires v in w.journal
  {
    var rec := w.journal[v];
    World(Put(w.vms, v, VmAfter(w.vms, a, v, rec)), w.storage - Freed(w.vms, a, v, rec),
          Put(w.journal, v, RecordAfter(w.vms, w.storage, a, v, rec)))
  }

  /** In the middle of it. */
  function During(w: World, a: Answers, phase: Phase, v: nat, rec: Pending, seen: bool): State {
    Of(w, a).(pc := At(phase, v, rec, seen))
  }

  /** Only the agent's own settling: nothing of a create, and nothing by others. */
  ghost predicate OnlySettles(steps: seq<Step>) {
    forall i :: 0 <= i < |steps| ==> !IsCreates(steps[i]) && !IsOthers(steps[i]) && !steps[i].Crash?
  }

  /** The steps lead from one state to the other. */
  ghost predicate Leads(s: State, steps: seq<Step>, t: State) {
    IsRun(s, steps, true) && End(s, steps, true) == t && OnlySettles(steps)
  }

  lemma Stays(s: State)
    ensures Leads(s, [], s)
  {
  }

  lemma Onward(s: State, steps: seq<Step>, at: State, step: Step, now: State) returns (longer: seq<Step>)
    requires Leads(s, steps, at) && Can(at, step, true) && Do(at, step, true) == now
    requires !IsCreates(step) && !IsOthers(step) && !step.Crash?
    ensures Leads(s, longer, now)
  {
    var there: State;
    longer, there := Go(s, steps, at, step, true);
  }

  // ---- The rollback ----

  function WriteOf(a: Answers, v: nat): Write {
    if v in a.written then Done else if v in a.torn then Failed(Torn) else Failed(Old)
  }

  /** The record, once it was to be written Abandoned. */
  function Noted(w: World, a: Answers, v: nat, rec: Pending): World {
    w.(journal := Rewritten(w.journal, v, rec.(stage := Abandoned), WriteOf(a, v)))
  }

  /** The world after a rollback of what is at `v`. */
  function RolledBack(w: World, a: Answers, v: nat, rec: Pending): World
    requires v in w.vms
  {
    var noted := Noted(w, a, v, rec);
    var journal := if Ends(w.vms, w.storage, a, v, rec) then w.journal - {v} else noted.journal;
    if Taken(w.vms, a, v, rec) then
      World(w.vms - {v}, w.storage - (w.vms[v].volumes - a.stuck) - (if v in a.looked then rec.volids - a.stuck else {}), journal)
    else if v in a.proofs && w.vms[v].stamp == Some(rec.id) then
      World(w.vms[v := w.vms[v].(running := false)], w.storage, journal)
    else World(w.vms, w.storage, journal)
  }

  lemma ARollbackIsARun(w: World, a: Answers, v: nat, rec: Pending, seen: bool, s: State, steps: seq<Step>) returns (longer: seq<Step>)
    requires v in w.vms && Leads(s, steps, During(w, a, GivingUp, v, rec, seen))
    ensures Leads(s, longer, Of(RolledBack(w, a, v, rec), a))
  {
    var noted := Noted(w, a, v, rec);
    var marked := During(noted, a, Marked, v, rec, seen);
    IsMarked(w, a, v, rec, seen);
    longer := Onward(s, steps, During(w, a, GivingUp, v, rec, seen), WriteAbandoned(WriteOf(a, v)), marked);
    longer := AMarkedOneIsARun(w, a, v, rec, seen, s, longer);
  }

  lemma IsMarked(w: World, a: Answers, v: nat, rec: Pending, seen: bool)
    ensures var s := During(w, a, GivingUp, v, rec, seen);
            && Can(s, WriteAbandoned(WriteOf(a, v)), true)
            && Do(s, WriteAbandoned(WriteOf(a, v)), true) == During(Noted(w, a, v, rec), a, Marked, v, rec, seen)
  {
  }

  lemma AMarkedOneIsARun(w: World, a: Answers, v: nat, rec: Pending, seen: bool, s: State, steps: seq<Step>) returns (longer: seq<Step>)
    requires v in w.vms && Leads(s, steps, During(Noted(w, a, v, rec), a, Marked, v, rec, seen))
    ensures Leads(s, longer, Of(RolledBack(w, a, v, rec), a))
  {
    var noted := Noted(w, a, v, rec);
    longer := steps;
    if v !in a.proofs {
      longer := Onward(s, longer, During(noted, a, Marked, v, rec, seen), ReadStamp(false), Of(noted, a));
    } else if w.vms[v].stamp != Some(rec.id) {
      var gone := noted.(journal := noted.journal - {v});
      longer := Onward(s, longer, During(noted, a, Marked, v, rec, seen), ReadStamp(true), Of(gone, a));
      assert gone.journal == w.journal - {v};
    } else {
      longer := Onward(s, longer, During(noted, a, Marked, v, rec, seen), ReadStamp(true), During(noted, a, Proven, v, rec, true));
      longer := AProvenOneIsTaken(noted, a, v, rec, s, longer);
      OneWorld(w, a, v, rec);
    }
  }

  /** Stopped, destroyed, and its volumes looked for. */
  function Taking(w: World, a: Answers, v: nat, rec: Pending): World
    requires v in w.vms
  {
    var volumes := w.vms[v].volumes;
    if v !in a.destroyed then w.(vms := w.vms[v := w.vms[v].(running := false)])
    else
      var gone := w.(vms := w.vms - {v}, storage := w.storage - (volumes - a.stuck));
      if v !in a.looked then gone
      else
        var storage := gone.storage - (rec.volids - a.stuck);
        gone.(storage := storage, journal := if rec.volids * storage == {} then w.journal - {v} else w.journal)
  }

  lemma OneWorld(w: World, a: Answers, v: nat, rec: Pending)
    requires v in w.vms && v in a.proofs && w.vms[v].stamp == Some(rec.id)
    ensures Taking(Noted(w, a, v, rec), a, v, rec) == RolledBack(w, a, v, rec)
  {
    var noted := Noted(w, a, v, rec);
    assert noted.journal - {v} == w.journal - {v};
    var storage := w.storage - (w.vms[v].volumes - a.stuck) - (rec.volids - a.stuck);
    forall x ensures x in rec.volids * storage <==> x in Recovery.Left(w.storage, a, rec) {
    }
    assert rec.volids * storage == Recovery.Left(w.storage, a, rec);
  }

  lemma AProvenOneIsTaken(w: World, a: Answers, v: nat, rec: Pending, s: State, steps: seq<Step>) returns (longer: seq<Step>)
    requires v in w.vms && Leads(s, steps, During(w, a, Proven, v, rec, true))
    ensures Leads(s, longer, Of(Taking(w, a, v, rec), a))
  {
    var off := w.(vms := w.vms[v := w.vms[v].(running := false)]);
    longer := Onward(s, steps, During(w, a, Proven, v, rec, true), Stop(true), During(off, a, Halted, v, rec, true));
    if v !in a.destroyed {
      longer := Onward(s, longer, During(off, a, Halted, v, rec, true), Destroy(false, false, {}), Of(off, a));
    } else {
      var left := w.vms[v].volumes * a.stuck;
      var gone := w.(vms := w.vms - {v}, storage := w.storage - (w.vms[v].volumes - a.stuck));
      assert off.vms - {v} == gone.vms;
      assert w.vms[v].volumes - left == w.vms[v].volumes - a.stuck;
      longer := Onward(s, longer, During(off, a, Halted, v, rec, true), Destroy(true, true, left), During(gone, a, Removed, v, rec, true));
      longer := VolumesAreLookedFor(gone, a, v, rec, true, s, longer);
    }
  }

  /** What asking for a record's volumes leaves. */
  function Looking(w: World, a: Answers, v: nat, rec: Pending): World {
    if v !in a.looked then w
    else
      var storage := w.storage - (rec.volids - a.stuck);
      w.(storage := storage, journal := if rec.volids * storage == {} then w.journal - {v} else w.journal)
  }

  lemma VolumesAreLookedFor(w: World, a: Answers, v: nat, rec: Pending, seen: bool, s: State, steps: seq<Step>) returns (longer: seq<Step>)
    requires Leads(s, steps, During(w, a, Removed, v, rec, seen))
    ensures Leads(s, longer, Of(Looking(w, a, v, rec), a))
  {
    var gone := rec.volids - a.stuck;
    assert gone * rec.volids == gone;
    longer := Onward(s, steps, During(w, a, Removed, v, rec, seen), AskVolumes(v in a.looked, gone), Of(Looking(w, a, v, rec), a));
  }

  // ---- One record ----

  lemma ARollbackOwedIsARun(w: World, a: Answers, v: nat) returns (steps: seq<Step>)
    requires v in w.journal && w.journal[v].stage == Abandoned
    ensures Leads(Of(w, a), steps, Of(Settled(w, a, v), a))
  {
    var s, rec := Of(w, a), w.journal[v];
    Stays(s);
    steps := Onward(s, [], s, Settle(v), During(w, a, Owing, v, rec, false));
    if v !in a.listed {
      steps := Onward(s, steps, During(w, a, Owing, v, rec, false), SeeOwed(false), s);
      AsItWas(w, a, v);
    } else if Listed(w.vms, v).None? {
      steps := Onward(s, steps, During(w, a, Owing, v, rec, false), SeeOwed(true), During(w, a, Removed, v, rec, false));
      steps := VolumesAreLookedFor(w, a, v, rec, false, s, steps);
      LookedForIsSettled(w, a, v);
    } else {
      steps := Onward(s, steps, During(w, a, Owing, v, rec, false), SeeOwed(true), During(w, a, GivingUp, v, rec, false));
      steps := ARollbackIsARun(w, a, v, rec, false, s, steps);
      RolledBackIsSettled(w, a, v, w);
    }
  }

  lemma AsItWas(w: World, a: Answers, v: nat)
    requires v in w.journal && Judged(w.vms, a, v, w.journal[v]).Wait?
    ensures Settled(w, a, v) == w
  {
    assert Put(w.vms, v, Lookup(w.vms, v)) == w.vms;
  }

  lemma LookedForIsSettled(w: World, a: Answers, v: nat)
    requires v in w.journal && Judged(w.vms, a, v, w.journal[v]).Count?
    ensures Settled(w, a, v) == Looking(w, a, v, w.journal[v])
  {
    var rec := w.journal[v];
    assert Put(w.vms, v, Lookup(w.vms, v)) == w.vms;
    assert rec.volids * (w.storage - (rec.volids - a.stuck)) == Recovery.Left(w.storage, a, rec);
  }

  /** The guest rolled back, with the claim put on before or as it was. */
  lemma RolledBackIsSettled(w: World, a: Answers, v: nat, claimed: World)
    requires v in w.journal && v in w.vms
    requires var verdict := Judged(w.vms, a, v, w.journal[v]);
             || (verdict.Undo? && claimed == w)
             || (verdict.Reclaim? && claimed == w.(vms := w.vms[v := w.vms[v].(tags := Claim(w.journal[v].id))]))
    ensures Settled(w, a, v) == RolledBack(claimed, a, v, w.journal[v])
  {
    var rec := w.journal[v];
    assert claimed.vms - {v} == w.vms - {v};
    assert Put(w.vms, v, Some(claimed.vms[v])) == claimed.vms;
    var volumes := w.vms[v].volumes;
    assert w.storage - ((volumes - a.stuck) + (rec.volids - a.stuck)) == w.storage - (volumes - a.stuck) - (rec.volids - a.stuck);
    assert w.storage - ((volumes - a.stuck) + {}) == w.storage - (volumes - a.stuck) - {};
    assert v !in a.written && v !in a.torn ==> w.journal[v := rec] == w.journal;
  }

  lemma ACloneIsARun(w: World, a: Answers, v: nat) returns (steps: seq<Step>)
    requires v in w.journal && w.journal[v].stage == Cloning
    ensures Leads(Of(w, a), steps, Of(Settled(w, a, v), a))
  {
    var s, rec := Of(w, a), w.journal[v];
    var well := rec.upid && Lookup(a.tasks, v) == Some(EndedWell);
    Stays(s);
    if rec.upid && Lookup(a.tasks, v) !in {Some(EndedWell), Some(EndedBadly)} {
      steps := Onward(s, [], s, Settle(v), s);
      AsItWas(w, a, v);
    } else {
      steps := Onward(s, [], s, Settle(v), During(w, a, Judging, v, rec, well));
      steps := AJudgedCloneIsARun(w, a, v, well, s, steps);
    }
  }

  lemma AJudgedCloneIsARun(w: World, a: Answers, v: nat, well: bool, s: State, steps: seq<Step>) returns (longer: seq<Step>)
    requires v in w.journal && w.journal[v].stage == Cloning
    requires !w.journal[v].upid || Lookup(a.tasks, v) in {Some(EndedWell), Some(EndedBadly)}
    requires well == (w.journal[v].upid && Lookup(a.tasks, v) == Some(EndedWell))
    requires Leads(s, steps, During(w, a, Judging, v, w.journal[v], well))
    ensures Leads(s, longer, Of(Settled(w, a, v), a))
  {
    var rec := w.journal[v];
    var at := During(w, a, Judging, v, rec, well);
    if v !in a.listed {
      longer := Onward(s, steps, at, Judge(false), Of(w, a));
      AsItWas(w, a, v);
    } else if Listed(w.vms, v).None? || w.vms[v].tags != Untagged || !well {
      longer := Onward(s, steps, at, Judge(true), Of(w.(journal := w.journal - {v}), a));
      ForgottenIsSettled(w, a, v);
    } else {
      longer := Onward(s, steps, at, Judge(true), During(w, a, Suspecting, v, rec, w.vms[v].pooled));
      longer := ASuspectIsARun(w, a, v, s, longer);
    }
  }

  lemma ForgottenIsSettled(w: World, a: Answers, v: nat)
    requires v in w.journal && Judged(w.vms, a, v, w.journal[v]).Forget?
    ensures Settled(w, a, v) == w.(journal := w.journal - {v})
  {
    assert Put(w.vms, v, Lookup(w.vms, v)) == w.vms;
  }

  lemma ASuspectIsARun(w: World, a: Answers, v: nat, s: State, steps: seq<Step>) returns (longer: seq<Step>)
    requires v in w.journal && w.journal[v].stage == Cloning && w.journal[v].upid && Lookup(a.tasks, v) == Some(EndedWell)
    requires v in w.vms && w.vms[v].listed && w.vms[v].tags == Untagged && v in a.listed
    requires Leads(s, steps, During(w, a, Suspecting, v, w.journal[v], w.vms[v].pooled))
    ensures Leads(s, longer, Of(Settled(w, a, v), a))
  {
    var rec, pooled := w.journal[v], w.vms[v].pooled;
    var at := During(w, a, Suspecting, v, rec, pooled);
    if v !in a.configs {
      longer := Onward(s, steps, at, ReadSuspect(false), Of(w, a));
      AsItWas(w, a, v);
    } else if !(pooled && w.vms[v].stamp == Some(rec.id)) {
      longer := Onward(s, steps, at, ReadSuspect(true), Of(w.(journal := w.journal - {v}), a));
      ForgottenIsSettled(w, a, v);
    } else {
      longer := Onward(s, steps, at, ReadSuspect(true), During(w, a, Retaking, v, rec, pooled));
      longer := AnOwnCloneIsARun(w, a, v, s, longer);
    }
  }

  lemma AnOwnCloneIsARun(w: World, a: Answers, v: nat, s: State, steps: seq<Step>) returns (longer: seq<Step>)
    requires v in w.journal && w.journal[v].stage == Cloning && w.journal[v].upid && Lookup(a.tasks, v) == Some(EndedWell)
    requires v in w.vms && w.vms[v].listed && w.vms[v].tags == Untagged && v in a.listed && v in a.configs
    requires w.vms[v].pooled && w.vms[v].stamp == Some(w.journal[v].id)
    requires Leads(s, steps, During(w, a, Retaking, v, w.journal[v], true))
    ensures Leads(s, longer, Of(Settled(w, a, v), a))
  {
    var rec := w.journal[v];
    if v !in a.claims {
      longer := Onward(s, steps, During(w, a, Retaking, v, rec, true), Retake(false, false), Of(w, a));
      AsItWas(w, a, v);
    } else {
      var claimed := w.(vms := w.vms[v := w.vms[v].(tags := Claim(rec.id))]);
      longer := Onward(s, steps, During(w, a, Retaking, v, rec, true), Retake(true, true), During(claimed, a, GivingUp, v, rec, true));
      longer := ARollbackIsARun(claimed, a, v, rec, true, s, longer);
      RolledBackIsSettled(w, a, v, claimed);
    }
  }

  /** **What a pass does with a record is a run of the protocol**, from taking it up
      to being done with it, whatever is answered. */
  lemma SettlingIsARun(w: World, a: Answers, v: nat) returns (steps: seq<Step>)
    requires v in w.journal
    ensures IsRun(Of(w, a), steps, true) && End(Of(w, a), steps, true) == Of(Settled(w, a, v), a)
    ensures OnlySettles(steps)
  {
    if w.journal[v].stage == Abandoned {
      steps := ARollbackOwedIsARun(w, a, v);
    } else {
      steps := ACloneIsARun(w, a, v);
    }
  }

  // ---- The whole pass ----

  lemma {:induction false} BothLead(s: State, first: seq<Step>, t: State, second: seq<Step>, u: State)
    requires Leads(s, first, t) && Leads(t, second, u)
    ensures Leads(s, first + second, u)
  {
    ThenAll(s, first, second);
  }

  lemma OneSettled(was: World, a: Answers, done: set<nat>, now: World, v: nat)
    requires Through(was, a, done, now) && v in was.journal && v !in done
    ensures v in now.journal && Through(was, a, done + {v}, Settled(now, a, v))
  {
    SameHere(was, a, done, now, v);
    Recovery.OneMore(was, a, done, now, v, Settled(now, a, v));
  }

  lemma OnlyOneWorld(was: World, a: Answers, done: set<nat>, x: World, y: World)
    requires Through(was, a, done, x) && Through(was, a, done, y)
    ensures x == y
  {
    SameAt(x.journal, y.journal);
    SameAt(x.vms, y.vms);
    forall s ensures s in x.storage <==> s in y.storage {
    }
  }

  lemma SameAt<V>(a: map<nat, V>, b: map<nat, V>)
    requires forall v :: Lookup(a, v) == Lookup(b, v)
    ensures a == b
  {
    forall v ensures v in a <==> v in b {
      assert Lookup(a, v) == Lookup(b, v);
    }
    forall v | v in a ensures a[v] == b[v] {
      assert Lookup(a, v) == Lookup(b, v);
    }
  }

  lemma {:induction false} TheRestIsARun(was: World, a: Answers, done: set<nat>, at: World, now: World) returns (steps: seq<Step>)
    requires Through(was, a, done, at) && Through(was, a, was.journal.Keys, now)
    ensures Leads(Of(at, a), steps, Of(now, a))
    decreases was.journal.Keys - done
  {
    if v :| v in was.journal && v !in done {
      OneSettled(was, a, done, at, v);
      var first := SettlingIsARun(at, a, v);
      var rest := TheRestIsARun(was, a, done + {v}, Settled(at, a, v), now);
      BothLead(Of(at, a), first, Of(Settled(at, a, v), a), rest, Of(now, a));
      steps := first + rest;
    } else {
      assert done == was.journal.Keys;
      OnlyOneWorld(was, a, done, at, now);
      Stays(Of(at, a));
      steps := [];
    }
  }

  /** **A whole recovery pass is a run of the protocol**; so on a host a run can
      reach, it reaches another, and keeps what every run keeps. */
  lemma APassIsARun(was: World, a: Answers, now: World) returns (steps: seq<Step>)
    requires Through(was, a, was.journal.Keys, now)
    ensures IsRun(Of(was, a), steps, true) && End(Of(was, a), steps, true) == Of(now, a) && OnlySettles(steps)
    ensures Reachable(Of(was, a)) ==> Reachable(Of(now, a)) && AtMostOne(Of(now, a))
  {
    assert Through(was, a, {}, was);
    steps := TheRestIsARun(was, a, {}, was, now);
    if Reachable(Of(was, a)) {
      var s, before :| Fresh(s) && IsRun(s, before, true) && End(s, before, true) == Of(was, a);
      ThenAll(s, before, steps);
      assert IsRun(s, before + steps, true) && End(s, before + steps, true) == Of(now, a);
      AtMostOneClone(Of(now, a));
    }
  }
}
