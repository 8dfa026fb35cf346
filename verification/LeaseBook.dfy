/** The book itself (`src/lease.rs`), updated in place by the rules of `RunLease`. */
module LeaseBook {
  import opened Wrappers
  import opened Wire
  import opened LeaseHeader
  import opened RunLease
  import opened LeaseFile

  class Book {
    var pending: Option<Reading>
    var leases: Leases

    constructor ()
      ensures pending == None && leases == map[]
    {
      pending := None;
      leases := map[];
    }

    method Heard(asked: Asked, header: Option<string>)
      modifies this`pending
      ensures pending == Some(Reading(asked, header))
    {
      pending := Some(Reading(asked, header));
    }

    /** Applies the last reading, once, to the view it answered. */
    method Renew(specs: seq<InstanceSpec>)
      modifies this
      ensures pending == None
      ensures leases ==
              match old(pending)
              case None => old(leases)
              case Some(r) => Applied(old(leases), r, specs)
    {
      if pending.Some? {
        var r := pending.value;
        pending := None;
        Apply(r, specs);
      }
    }

    method Apply(r: Reading, specs: seq<InstanceSpec>)
      modifies this`leases
      ensures leases == Applied(old(leases), r, specs)
    {
      var told := Told(r);
      var i := 0;
      while i < |specs|
        invariant 0 <= i <= |specs|
        invariant forall id :: Lookup(leases, id) == Named(old(leases), r, specs[..i], id)
      {
        var spec := specs[i];
        assert specs[..i + 1] == specs[..i] + [spec];
        ghost var was := leases;
        if spec.intent == Running {
          if told.Some? && spec.id in told.value.1 {
            var t := told.value.0 * SECOND;
            var keep := spec.id in leases && leases[spec.id].deadline > r.asked.at + t;
            if !keep {
              leases := leases[spec.id := Lease(r.asked.at + t, r.asked.wall + t, false)];
            }
          } else {
            leases := leases - {spec.id};
          }
        }
        forall id ensures Lookup(leases, id) == Named(old(leases), r, specs[..i + 1], id) {
          NamedOneMore(old(leases), r, specs[..i], spec, id);
          assert Lookup(was, id) == Named(old(leases), r, specs[..i], id);
        }
        i := i + 1;
      }
      assert specs[..i] == specs;
      leases := map id | id in leases && !(Spent(leases[id], r) && forall j :: 0 <= j < |specs| ==> specs[j].id != id) :: leases[id];
      forall id ensures Lookup(leases, id) == Lookup(Applied(old(leases), r, specs), id) {
        assert Names(specs, id) <==> !forall j :: 0 <= j < |specs| ==> specs[j].id != id;
      }
      SameEverywhere(leases, Applied(old(leases), r, specs));
    }

    /** A restarted agent takes up its predecessor's leases: how many, or why none. */
    method Resumed(file: File, now: int, wall: int) returns (n: Result<nat, Unread>)
      modifies this`leases
      ensures match Read(file)
              case Err(why) => n == Err(why) && leases == old(leases)
              case Ok(body) => leases == ResumedInto(old(leases), body, now, wall) && n == Ok(TakenUp(old(leases), body, now, wall))
    {
      match file
      case NoFile => return Err(Missing);
      case NotReadable => return Err(Unreadable);
      case Holds(text) =>
        match ReadBody(text)
        case Err(_) => return Err(Refused);
        case Ok(body) =>
          var count := 0;
          var i := 0;
          while i < |body|
            invariant 0 <= i <= |body| && count == TakenUp(old(leases), body[..i], now, wall)
            invariant leases == ResumedInto(old(leases), body[..i], now, wall)
          {
            var w := body[i];
            var deadline := now + if w.until * SECOND > wall then w.until * SECOND - wall else 0;
            assert body[..i + 1][..i] == body[..i];
            if !(w.id in leases && leases[w.id].deadline >= deadline) {
              leases := leases[w.id := Lease(deadline, w.until * SECOND, false)];
              count := count + 1;
            }
            i := i + 1;
          }
          assert body[..i] == body;
          return Ok(count);
    }

    /** A machine proven gone here holds no lease. */
    method Forget(id: string)
      modifies this`leases
      ensures leases == old(leases) - {id}
    {
      leases := leases - {id};
    }

    method MarkStopped(id: string)
      modifies this`leases
      ensures leases == MarkedIn(old(leases), {id})
    {
      if id in leases {
        leases := leases[id := leases[id].(stopped := true)];
      }
    }

    /** One look: every expired lease's machine asked to stop, those answered
        marked, and what the file is then given. */
    method Check(now: int, answered: set<string>) returns (body: seq<Written>)
      modifies this`leases
      ensures leases == Looked(old(leases), now, answered)
      ensures body == FileBody(leases)
    {
      StopExpired(now, answered);
      body := FileBody(leases);
    }

    method StopExpired(now: int, answered: set<string>)
      modifies this`leases
      ensures leases == Looked(old(leases), now, answered)
    {
      ghost var was := leases;
      var asked := Expired(leases, now);
      ghost var done: set<string> := {};
      var i := 0;
      while i < |asked|
        invariant 0 <= i <= |asked|
        invariant leases == MarkedIn(was, done * answered)
        invariant forall x :: x in asked <==> x in done || x in asked[i..]
      {
        done := done + {asked[i]};
        if asked[i] in answered {
          MarkStopped(asked[i]);
        }
        i := i + 1;
      }
      LookedByEach(was, done, now, answered);
    }
  }
}
