/**
 A reboot is performed once per token (`src/instance.rs:387-431`,
 `crates/onv-driver-proxmox/src/reboots.rs`): a record written before the
 request, settled by what is observed, never by asking again.
 */
module Reboot {
  import opened Wrappers

  datatype Record = Record(token: string, askedAt: nat, done: bool)

  /** What one pass sees of the machine: the token Core sends, whether the machine
      is running and meant to be, its uptime and the host's clock in seconds. */
  datatype Sight = Sight(token: Option<string>, atWork: bool, uptime: Option<nat>, now: nat)

  /** What becomes of the pass: whether the record is read (one that is not is
      taken for none) or removed, which writes and answers succeed, and whether
      the agent dies after the first write or after the request. */
  datatype Fate = Fate(
    read: bool, removed: bool, written: bool, diesBeforeAsking: bool, ended: bool, diesAfterAsking: bool, doneWritten: bool
  )

  /** Up for less time than has passed since the request, five seconds aside. */
  predicate Happened(r: Record, uptime: Option<nat>, now: nat) {
    uptime.Some? && uptime.value <= (if now > r.askedAt then now - r.askedAt else 0) + 5
  }

  /** The uptime test in terms of when the guest booted: it passes exactly when
      that is no more than five seconds before the request, so the one guest it
      wrongly takes for rebooted is one that booted in those five seconds. */
  lemma HappenedMeansBootedSince(r: Record, uptime: nat, now: nat)
    requires now >= r.askedAt
    ensures Happened(r, Some(uptime), now) <==> now - uptime >= r.askedAt - 5
  {
  }

  /** One machine's durable record, and what was asked of its hypervisor. */
  datatype Machine = Machine(record: Option<Record>, asked: seq<string>, echoed: seq<string>)

  /** The record is this token's. */
  predicate Ours(record: Option<Record>, token: string) {
    record.Some? && record.value.token == token
  }

  /** The record as the pass reads it. */
  function Read(record: Option<Record>, f: Fate): Option<Record> {
    if f.read then record else None
  }

  /** One pass's effect on it. */
  function Passed(m: Machine, s: Sight, f: Fate): Machine {
    match s.token
    case None => if f.removed then m.(record := None) else m
    case Some(token) =>
      var record := Read(m.record, f);
      if !s.atWork then m
      else if Ours(record, token) && record.value.done then m.(echoed := m.echoed + [token])
      else if Ours(record, token) then
        if Happened(record.value, s.uptime, s.now) && f.doneWritten
        then m.(record := Some(record.value.(done := true)), echoed := m.echoed + [token])
        else m
      else if !f.written then m
      else
        var asked := m.(record := Some(Record(token, s.now, false)));
        if f.diesBeforeAsking then asked
        else
          var sent := asked.(asked := asked.asked + [token]);
          if f.diesAfterAsking || !f.ended || !f.doneWritten then sent
          else sent.(record := Some(Record(token, s.now, true)), echoed := sent.echoed + [token])
  }

  /** **What is on record after a pass**: a token withdrawn takes its record with
      it, if the removal works; a pass with no machine at work leaves it; and one
      that finds another token's, or none, writes its own before it asks. */
  lemma WhatAPassRecords(m: Machine, s: Sight, f: Fate)
    ensures var after := Passed(m, s, f);
            && (s.token.None? ==> after == Machine(if f.removed then None else m.record, m.asked, m.echoed))
            && (s.token.Some? && !s.atWork ==> after == m)
            && (s.token.Some? && s.atWork && f.read && Ours(m.record, s.token.value) ==>
                  && after.asked == m.asked && Ours(after.record, s.token.value)
                  && after.record.value.askedAt == m.record.value.askedAt)
            && (s.token.Some? && s.atWork && !(f.read && Ours(m.record, s.token.value)) ==>
                  if f.written then after.record.Some? && after.record.value.(done := false) == Record(s.token.value, s.now, false)
                  else after == m)
  {
  }

  /** The journal beside the clones', one record per machine. */
  class Journal {
    var records: map<string, Record>
    ghost var asked: map<string, seq<string>>
    ghost var echoed: map<string, seq<string>>

    ghost function Of(id: string): Machine
      reads this
    {
      Machine(Lookup(records, id), if id in asked then asked[id] else [], if id in echoed then echoed[id] else [])
    }

    /** `Some(token)` is echoed to Core, which then stops sending it. */
    method Pass(id: string, s: Sight, f: Fate) returns (echo: Option<string>)
      modifies this
      ensures Of(id) == Passed(old(Of(id)), s, f)
      ensures forall other :: other != id ==> Of(other) == old(Of(other))
      ensures echo.Some? ==> Of(id).echoed == old(Of(id).echoed) + [echo.value]
      ensures echo.None? ==> Of(id).echoed == old(Of(id).echoed)
    {
      echo := None;
      match s.token
      case None =>
        if f.removed {
          records := records - {id};
        }
      case Some(token) =>
        if s.atWork {
          var record := if f.read then Lookup(records, id) else None;
          if Ours(record, token) {
            if record.value.done {
              echo := Some(token);
            } else if Happened(record.value, s.uptime, s.now) {
              if !f.doneWritten {
                return;
              }
              records := records[id := record.value.(done := true)];
              echo := Some(token);
            }
          } else {
            if !f.written {
              return;
            }
            records := records[id := Record(token, s.now, false)];
            if f.diesBeforeAsking {
              return;
            }
            asked := asked[id := Of(id).asked + [token]];
            if f.diesAfterAsking || !f.ended || !f.doneWritten {
              return;
            }
            records := records[id := Record(token, s.now, true)];
            echo := Some(token);
          }
        }
        if echo.Some? {
          echoed := echoed[id := Of(id).echoed + [token]];
        }
    }
  }

  // ---- Over any run ----

  datatype Try = Try(sight: Sight, fate: Fate)

  const NOTHING_YET := Machine(None, [], [])

  function After(passes: seq<Try>): Machine {
    if passes == [] then NOTHING_YET
    else Passed(After(passes[..|passes| - 1]), passes[|passes| - 1].sight, passes[|passes| - 1].fate)
  }

  /** Core never returns to an earlier token: between two passes that carry one
      token, every pass carries it. */
  ghost predicate NoReturn(passes: seq<Try>) {
    forall i, j, k :: 0 <= i <= j <= k < |passes| && passes[i].sight.token.Some? && passes[i].sight.token == passes[k].sight.token
      ==> passes[j].sight.token == passes[i].sight.token
  }

  ghost predicate Sent(passes: seq<Try>, token: string) {
    exists i :: 0 <= i < |passes| && passes[i].sight.token == Some(token)
  }

  /** Times `token` was asked for. */
  function Count(asked: seq<string>, token: string): nat {
    multiset(asked)[token]
  }

  /** A pass that goes as far as asking, if it finds no record of its token. */
  predicate GoesOn(t: Try, token: string) {
    t.sight.token == Some(token) && t.sight.atWork && t.fate.written && !t.fate.diesBeforeAsking
  }

  /** Asked for before, its record not read, and so asked for again. */
  ghost predicate AsksAgain(passes: seq<Try>, k: nat, token: string) {
    k < |passes| && GoesOn(passes[k], token) && !passes[k].fate.read && token in After(passes[..k]).asked
  }

  ghost predicate AskedAgain(passes: seq<Try>, token: string) {
    exists k: nat :: AsksAgain(passes, k, token)
  }

  /** In that pass the reboot was seen to happen: the uptime test passed on its
      record, or the request was made there and its task ended well. */
  ghost predicate SeenIn(passes: seq<Try>, k: nat, token: string) {
    && k < |passes|
    && var t := passes[k];
    && t.sight.token == Some(token) && t.sight.atWork
    && var record := Read(After(passes[..k]).record, t.fate);
    if Ours(record, token) then Happened(record.value, t.sight.uptime, t.sight.now)
    else GoesOn(t, token) && !t.fate.diesAfterAsking && t.fate.ended
  }

  ghost predicate Seen(passes: seq<Try>, token: string) {
    exists k: nat :: SeenIn(passes, k, token)
  }

  lemma OneMore(passes: seq<Try>, t: Try)
    ensures After(passes + [t]) == Passed(After(passes), t.sight, t.fate)
    ensures forall k :: 0 <= k <= |passes| ==> (passes + [t])[..k] == passes[..k]
  {
    assert (passes + [t])[..|passes|] == passes == passes[..|passes|];
  }

  lemma SentBefore(passes: seq<Try>, t: Try, token: string)
    ensures Sent(passes + [t], token) <==> Sent(passes, token) || t.sight.token == Some(token)
  {
    var all := passes + [t];
    if i :| 0 <= i < |passes| && passes[i].sight.token == Some(token) { assert all[i] == passes[i]; }
    if t.sight.token == Some(token) { assert all[|passes|] == t; }
  }

  lemma NoReturnBefore(passes: seq<Try>, t: Try)
    requires NoReturn(passes + [t])
    ensures NoReturn(passes)
    ensures t.sight.token.Some? && Sent(passes, t.sight.token.value) ==>
              passes != [] && passes[|passes| - 1].sight.token == t.sight.token
  {
    var all := passes + [t];
    forall i, j, k | 0 <= i <= j <= k < |passes| && passes[i].sight.token.Some? && passes[i].sight.token == passes[k].sight.token
      ensures passes[j].sight.token == passes[i].sight.token
    {
      assert all[i] == passes[i] && all[j] == passes[j] && all[k] == passes[k];
    }
    if t.sight.token.Some? && Sent(passes, t.sight.token.value) {
      var i :| 0 <= i < |passes| && passes[i].sight.token == Some(t.sight.token.value);
      assert all[i].sight.token == all[|passes|].sight.token;
      assert all[|passes| - 1] == passes[|passes| - 1];
    }
  }

  /** What is not sent is not asked for; and what was asked for and is still sent
      has its record. */
  ghost predicate Inv(m: Machine, passes: seq<Try>) {
    && (forall token :: !Sent(passes, token) ==> token !in m.asked && !Ours(m.record, token))
    && (passes != [] && passes[|passes| - 1].sight.token.Some? ==>
          var token := passes[|passes| - 1].sight.token.value;
          token in m.asked ==> Ours(m.record, token))
  }

  /** The pass asks for its token. */
  predicate AsksNow(m: Machine, t: Try) {
    t.sight.token.Some? && GoesOn(t, t.sight.token.value) && !Ours(Read(m.record, t.fate), t.sight.token.value)
  }

  lemma WhatAPassAsks(m: Machine, t: Try)
    ensures Passed(m, t.sight, t.fate).asked == if AsksNow(m, t) then m.asked + [t.sight.token.value] else m.asked
  {
  }

  lemma CountedOnceMore(asked: seq<string>, more: string, token: string)
    ensures Count(asked + [more], token) == Count(asked, token) + if more == token then 1 else 0
    ensures token in asked <==> Count(asked, token) > 0
  {
    assert multiset(asked + [more]) == multiset(asked) + multiset{more};
  }

  lemma OnePassKeeps(m: Machine, passes: seq<Try>, t: Try)
    requires Inv(m, passes)
    requires t.sight.token.Some? && Sent(passes, t.sight.token.value) ==>
               passes != [] && passes[|passes| - 1].sight.token == t.sight.token
    ensures Inv(Passed(m, t.sight, t.fate), passes + [t])
  {
    var after := Passed(m, t.sight, t.fate);
    WhatAPassAsks(m, t);
    forall token | !Sent(passes + [t], token) ensures token !in after.asked && !Ours(after.record, token) {
      SentBefore(passes, t, token);
      NotSentIsNotAsked(m, t, token);
    }
    if t.sight.token.Some? && t.sight.token.value in after.asked {
      AskedHasItsRecord(m, t, t.sight.token.value);
    }
  }

  lemma NotSentIsNotAsked(m: Machine, t: Try, token: string)
    requires t.sight.token != Some(token) && token !in m.asked && !Ours(m.record, token)
    ensures token !in Passed(m, t.sight, t.fate).asked && !Ours(Passed(m, t.sight, t.fate).record, token)
  {
  }

  lemma AskedHasItsRecord(m: Machine, t: Try, token: string)
    requires t.sight.token == Some(token) && (token in m.asked ==> Ours(m.record, token))
    requires token in Passed(m, t.sight, t.fate).asked
    ensures Ours(Passed(m, t.sight, t.fate).record, token)
  {
  }

  lemma {:induction false} RunKeeps(passes: seq<Try>)
    requires NoReturn(passes)
    ensures Inv(After(passes), passes)
  {
    if passes != [] {
      var init, t := passes[..|passes| - 1], passes[|passes| - 1];
      assert passes == init + [t];
      NoReturnBefore(init, t);
      RunKeeps(init);
      OnePassKeeps(After(init), init, t);
    }
  }

  /** A pass asks again exactly where the count of a token goes past one. */
  lemma OneMoreAsked(passes: seq<Try>, t: Try, token: string)
    requires NoReturn(passes + [t])
    ensures var m := After(passes);
            && Count(After(passes + [t]).asked, token) ==
                 Count(m.asked, token) + (if AsksNow(m, t) && t.sight.token == Some(token) then 1 else 0)
            && (token in m.asked <==> Count(m.asked, token) > 0)
            && (AsksNow(m, t) && t.sight.token == Some(token) && token in m.asked <==> AsksAgain(passes + [t], |passes|, token))
  {
    OneMore(passes, t);
    NoReturnBefore(passes, t);
    RunKeeps(passes);
    WhatAPassAsks(After(passes), t);
    CountedOnceMore(After(passes).asked, if t.sight.token.Some? then t.sight.token.value else token, token);
    if t.sight.token == Some(token) && !Sent(passes, token) {
      assert token !in After(passes).asked;
    }
  }

  lemma AskedAgainBefore(passes: seq<Try>, t: Try, token: string)
    ensures AskedAgain(passes + [t], token) <==> AskedAgain(passes, token) || AsksAgain(passes + [t], |passes|, token)
  {
    var all := passes + [t];
    OneMore(passes, t);
    if k: nat :| AsksAgain(passes, k, token) {
      assert AsksAgain(all, k, token);
    }
    if k: nat :| AsksAgain(all, k, token) {
      assert k < |passes| ==> AsksAgain(passes, k, token);
    }
  }

  /** **How often a token is asked for**, over any run of passes, agents that die at
      any point, lost echoes and repeated sends: more than once exactly when some
      pass could not read its record, and went on. */
  lemma {:induction false} AtMostOncePerToken(passes: seq<Try>, token: string)
    requires NoReturn(passes)
    ensures Count(After(passes).asked, token) > 1 <==> AskedAgain(passes, token)
    decreases |passes|
  {
    if passes != [] {
      var init, t := passes[..|passes| - 1], passes[|passes| - 1];
      assert passes == init + [t];
      NoReturnBefore(init, t);
      AtMostOncePerToken(init, token);
      OneMoreAsked(init, t, token);
      AskedAgainBefore(init, t, token);
    }
  }

  /** Where every record is read, **at most once per token**. */
  lemma AtMostOnceWhereRead(passes: seq<Try>, token: string)
    requires NoReturn(passes) && forall k :: 0 <= k < |passes| ==> passes[k].fate.read
    ensures Count(After(passes).asked, token) <= 1
  {
    AtMostOncePerToken(passes, token);
  }

  /** **A record that cannot be read reboots the machine again**, Core never
      returning to a token. */
  lemma ARecordNotReadRebootsAgain(token: string) returns (passes: seq<Try>)
    ensures NoReturn(passes) && AsksAgain(passes, 1, token) && Count(After(passes).asked, token) == 2
  {
    var well := Try(Sight(Some(token), true, None, 0), Fate(true, true, true, false, true, false, true));
    var unread := well.(fate := well.fate.(read := false));
    passes := [well, unread];
    OneMore([], well);
    OneMore([well], unread);
    assert [] + [well] == [well] && passes == [well] + [unread];
    assert passes[..1] == [well];
    assert After([well]) == Machine(Some(Record(token, 0, true)), [token], [token]);
    assert After(passes).asked == [token] + [token] && multiset([token] + [token])[token] == 2;
    assert AsksAgain(passes, 1, token);
  }

  /** Done, or echoed, only once it was seen. */
  ghost predicate EchoInv(m: Machine, passes: seq<Try>) {
    && (m.record.Some? && m.record.value.done ==> Seen(passes, m.record.value.token))
    && forall token :: token in m.echoed ==> Seen(passes, token)
  }

  lemma {:induction false} EchoesKeep(passes: seq<Try>)
    ensures EchoInv(After(passes), passes)
  {
    if passes != [] {
      var init, t := passes[..|passes| - 1], passes[|passes| - 1];
      assert passes == init + [t];
      EchoesKeep(init);
      OneMore(init, t);
      forall token | Seen(init, token) ensures Seen(passes, token) {
        var k: nat :| SeenIn(init, k, token);
        assert SeenIn(passes, k, token);
      }
      var m, after := After(init), After(passes);
      if after.record != m.record && after.record.Some? && after.record.value.done {
        assert SeenIn(passes, |init|, after.record.value.token);
      }
      if after.echoed != m.echoed {
        assert after.record.Some? && after.record.value.done && after.echoed == m.echoed + [after.record.value.token];
      }
    }
  }

  /** **Echoed only when it was seen to happen**, in this pass or an earlier one. */
  lemma EchoedOnlyWhenSeen(passes: seq<Try>, token: string)
    requires token in After(passes).echoed
    ensures Seen(passes, token)
  {
    EchoesKeep(passes);
  }

  /** The reboot was seen in that pass, or already recorded done, and what was
      seen is on record after it. */
  ghost predicate RecordedIn(passes: seq<Try>, k: nat, token: string) {
    && k < |passes|
    && var t, before := passes[k], After(passes[..k]).record;
    && t.sight.token == Some(token) && t.sight.atWork
    && if t.fate.read && before.Some? && before.value.token == token
       then before.value.done || (SeenIn(passes, k, token) && t.fate.doneWritten)
       else SeenIn(passes, k, token) && t.fate.doneWritten
  }

  /** **When a pass echoes**: exactly when it finds the reboot done, or sees it
      happen and gets that on record. */
  lemma WhenAPassEchoes(passes: seq<Try>, t: Try, token: string)
    ensures var m, after := After(passes), After(passes + [t]);
            if RecordedIn(passes + [t], |passes|, token)
            then after.echoed == m.echoed + [token] && (exists at :: after.record == Some(Record(token, at, true)))
            else t.sight.token == Some(token) ==> after.echoed == m.echoed
  {
    OneMore(passes, t);
    assert (passes + [t])[|passes|] == t;
    var m, after := After(passes), After(passes + [t]);
    if RecordedIn(passes + [t], |passes|, token) {
      assert after.record == Some(Record(token, after.record.value.askedAt, true));
    }
  }

  /** **Echoed exactly when** some pass saw the reboot and got it on record. */
  lemma {:induction false} WhenATokenIsEchoed(passes: seq<Try>, token: string)
    ensures token in After(passes).echoed <==> exists k: nat :: RecordedIn(passes, k, token)
  {
    if passes != [] {
      var init, t := passes[..|passes| - 1], passes[|passes| - 1];
      assert passes == init + [t];
      WhenATokenIsEchoed(init, token);
      OneMore(init, t);
      WhenAPassEchoes(init, t, token);
      if k: nat :| RecordedIn(init, k, token) {
        assert RecordedIn(passes, k, token);
      }
      if k: nat :| RecordedIn(passes, k, token) {
        assert k < |init| ==> RecordedIn(init, k, token);
      }
      if t.sight.token != Some(token) {
        assert token in After(passes).echoed <==> token in After(init).echoed;
      }
    }
  }

  /** **Why Core must not return to a token**: told to forget one and then sent it
      again, the agent reboots the machine again, with every record read. */
  lemma AReturnedTokenRebootsAgain(token: string) returns (passes: seq<Try>)
    ensures !NoReturn(passes) && (forall k :: 0 <= k < |passes| ==> passes[k].fate.read)
    ensures Count(After(passes).asked, token) == 2
  {
    var sent := Try(Sight(Some(token), true, None, 0), Fate(true, true, true, false, true, false, true));
    var clear := sent.(sight := sent.sight.(token := None));
    passes := [sent, clear, sent];
    OneMore([], sent);
    OneMore([sent], clear);
    OneMore([sent, clear], sent);
    assert [] + [sent] == [sent] && [sent] + [clear] == [sent, clear] && passes == [sent, clear] + [sent];
    assert After([sent]).asked == [token];
    assert After([sent, clear]).asked == [token];
    assert After(passes).asked == [token, token];
    assert passes[0].sight.token == passes[2].sight.token && passes[1].sight.token != passes[0].sight.token;
  }
}
