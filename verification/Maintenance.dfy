/**
 While Core is unreachable: maintain, do not decide (`src/instance.rs:1210-1275,
 1720-1730`). A machine meant to run, that exists here and that its node calls
 stopped, is started again; nothing else is done.
 */
module Maintenance {
  import opened Wrappers
  import opened Wire

  predicate MaintenanceMayTouch(intent: Lifecycle, there: bool, running: bool) {
    intent == Running && there && !running
  }

  /** What looking for one machine's guest answers: its node's word on its power,
      whether everything its start waits for comes within the gate's looks, and
      whether the start ends well. */
  datatype Found =
    | CouldNotLook
    | NoGuest
    | Guest(power: Option<string>, ready: bool, starts: bool)

  type Host = map<string, Found>

  function Look(host: Host, id: string): Found {
    if id in host then host[id] else NoGuest
  }

  /** A start is asked for: meant to run, found, stopped by its node's word, and
      ready within the gate's looks. */
  predicate AsksFor(spec: InstanceSpec, host: Host) {
    && spec.intent == Running
    && Look(host, spec.id).Guest?
    && Look(host, spec.id).power == Some("stopped")
    && Look(host, spec.id).ready
  }

  /** The starts asked for, of the first `n`, in order and once each. */
  function StartsOf(specs: seq<InstanceSpec>, host: Host, n: nat): (r: seq<string>)
    requires n <= |specs|
    ensures |r| <= n
    ensures forall id :: id in r <==> exists i :: 0 <= i < n && specs[i].id == id && AsksFor(specs[i], host)
  {
    if n == 0 then []
    else StartsOf(specs, host, n - 1) + if AsksFor(specs[n - 1], host) then [specs[n - 1].id] else []
  }

  /** How many of the first `n` starts asked for ended well. */
  function EndedWell(asked: seq<string>, host: Host, n: nat): (r: nat)
    requires n <= |asked|
    ensures r <= n
  {
    if n == 0 then 0
    else
      var last := Look(host, asked[n - 1]);
      EndedWell(asked, host, n - 1) + if last.Guest? && last.starts then 1 else 0
  }

  /** **What is started again, exactly**: a machine meant to run that its node
      calls stopped and whose start has all it waits for, and no other. */
  lemma WhatIsStartedAgain(specs: seq<InstanceSpec>, host: Host, id: string)
    ensures id in StartsOf(specs, host, |specs|) <==>
            && NamesRunning(specs, id)
            && id in host
            && (host[id] == Guest(Some("stopped"), true, true) || host[id] == Guest(Some("stopped"), true, false))
  {
    if NamesRunning(specs, id) && id in host {
      var i :| 0 <= i < |specs| && specs[i].id == id && specs[i].intent == Running;
      assert AsksFor(specs[i], host) <==> host[id].Guest? && host[id].power == Some("stopped") && host[id].ready;
    }
  }

  /** One start for each mention of such a machine, in the order listed. */
  lemma EachIsAskedInItsTurn(specs: seq<InstanceSpec>, spec: InstanceSpec, host: Host)
    ensures StartsOf(specs + [spec], host, |specs + [spec]|) ==
            StartsOf(specs, host, |specs|) + if AsksFor(spec, host) then [spec.id] else []
  {
    FirstStarts(specs, [spec], host, |specs|);
    assert (specs + [spec])[|specs|] == spec;
  }

  lemma {:induction false} FirstStarts(a: seq<InstanceSpec>, b: seq<InstanceSpec>, host: Host, n: nat)
    requires n <= |a|
    ensures StartsOf(a + b, host, n) == StartsOf(a, host, n)
  {
    if n > 0 {
      FirstStarts(a, b, host, n - 1);
    }
  }

  /** Those whose start ended well, counted one by one. */
  lemma {:induction false} RestartedIsTheirNumber(asked: seq<string>, host: Host, n: nat)
    requires n <= |asked|
    ensures EndedWell(asked, host, n) ==
            |set i: nat | i < n && asked[i] in host && host[asked[i]].Guest? && host[asked[i]].starts|
  {
    var well := set i: nat | i < n && asked[i] in host && host[asked[i]].Guest? && host[asked[i]].starts;
    if n > 0 {
      RestartedIsTheirNumber(asked, host, n - 1);
      var before := set i: nat | i < n - 1 && asked[i] in host && host[asked[i]].Guest? && host[asked[i]].starts;
      assert well == if asked[n - 1] in host && host[asked[n - 1]].Guest? && host[asked[n - 1]].starts
                     then before + {n - 1} else before;
    }
  }

  lemma {:induction false} EndedOneMore(asked: seq<string>, id: string, host: Host, n: nat)
    requires n <= |asked|
    ensures EndedWell(asked + [id], host, n) == EndedWell(asked, host, n)
  {
    if n > 0 {
      EndedOneMore(asked, id, host, n - 1);
    }
  }

  /** The starts asked for, in order, and how many ended well. A machine that
      cannot be looked for, or whose start fails, stops none of the others. */
  method Maintain(specs: seq<InstanceSpec>, host: Host) returns (asked: seq<string>, restarted: nat)
    ensures asked == StartsOf(specs, host, |specs|)
    ensures restarted == EndedWell(asked, host, |asked|)
  {
    asked, restarted := [], 0;
    var i := 0;
    while i < |specs|
      invariant 0 <= i <= |specs|
      invariant asked == StartsOf(specs, host, i)
      invariant restarted == EndedWell(asked, host, |asked|)
    {
      var spec := specs[i];
      i := i + 1;
      if !MaintenanceMayTouch(spec.intent, true, false) {
        continue;
      }
      match Look(host, spec.id)
      case CouldNotLook =>
      case NoGuest =>
      case Guest(power, ready, starts) =>
        if power.Some? && MaintenanceMayTouch(spec.intent, true, power.value != "stopped") && ready {
          EndedOneMore(asked, spec.id, host, |asked|);
          asked := asked + [spec.id];
          if starts {
            restarted := restarted + 1;
          }
        }
    }
  }
}
