/**
 The held view (`src/heldview.rs`): which machines a restarted agent may start
 while Core is unreachable. The gates of one boot pass, and the file they read.
 */
module HeldView {
  import opened Wrappers
  import opened Wire
  import opened RunLease
  import opened LeaseFile
  import opened Maintenance

  const FUTURE_SKEW: int := 60 * SECOND

  datatype Persisted = Persisted(coreUrl: string, version: nat, askedUnix: nat, instances: seq<InstanceSpec>)

  datatype ViewFile = NoView | TornView | Kept(view: Persisted)

  datatype Refusal =
    | PathOff | LeasesUnread(why: Unread) | Restoring
    | NotRead | NotParsed | OtherCore | TooOld | FromTheFuture

  /** The view as the file keeps it: ids and intents only. */
  function Of(coreUrl: string, view: View, asked: int): (held: Persisted)
    ensures held.coreUrl == coreUrl && held.version == view.version && held.askedUnix == Unix(asked)
    ensures |held.instances| == |view.instances|
    ensures forall i :: 0 <= i < |view.instances| ==>
              held.instances[i] == InstanceSpec(view.instances[i].id, view.instances[i].intent, false)
  {
    Persisted(coreUrl, view.version, Unix(asked),
              seq(|view.instances|, i requires 0 <= i < |view.instances| =>
                InstanceSpec(view.instances[i].id, view.instances[i].intent, false)))
  }

  /** The file, if it may be maintained from now. */
  function ReadView(file: ViewFile, coreUrl: string, maxAge: int, now: int): Result<Persisted, Refusal> {
    match file
    case NoView => Err(NotRead)
    case TornView => Err(NotParsed)
    case Kept(held) =>
      if held.coreUrl != coreUrl then Err(OtherCore)
      else
        var asked := held.askedUnix * SECOND;
        if now >= asked then (if now - asked > maxAge then Err(TooOld) else Ok(held))
        else if asked - now <= FUTURE_SKEW then Ok(held)
        else Err(FromTheFuture)
  }

  /** Intent Running, and no lease of its run out. */
  function ToStart(specs: seq<InstanceSpec>, ls: Leases, now: int): (r: seq<InstanceSpec>)
    ensures forall s :: s in r <==> s in specs && s.intent == Running && MayRestart(ls, s.id, now)
  {
    if specs == [] then []
    else
      var rest := ToStart(specs[1..], ls, now);
      assert specs == [specs[0]] + specs[1..];
      if specs[0].intent == Running && MayRestart(ls, specs[0].id, now) then [specs[0]] + rest else rest
  }

  /** What decides a boot pass, apart from the files. */
  datatype Gates = Gates(coreUrl: string, maxAge: nat, leases: Result<nat, Unread>, restoring: bool)

  /** Every gate, in the order they are asked. */
  function Gated(g: Gates, file: ViewFile, ls: Leases, now: int, wall: int): Result<seq<InstanceSpec>, Refusal> {
    if g.maxAge == 0 then Err(PathOff)
    else if g.leases.Err? then Err(LeasesUnread(g.leases.error))
    else if g.restoring then Err(Restoring)
    else
      match ReadView(file, g.coreUrl, g.maxAge, wall)
      case Err(why) => Err(why)
      case Ok(held) => Ok(ToStart(held.instances, ls, now))
  }

  datatype PassResult = Refused(why: Refusal) | Started(n: nat)

  class Store {
    var file: ViewFile

    /** Written whole or not at all. */
    method Write(held: Persisted, written: bool)
      modifies this
      ensures file == if written then Kept(held) else old(file)
    {
      if written {
        file := Kept(held);
      }
    }

    /** Taken out of use: renamed aside, or removed when it cannot be. */
    method Retire(renamed: bool, removed: bool)
      modifies this
      ensures file == if renamed || removed then NoView else old(file)
    {
      if file != NoView {
        if renamed {
          file := NoView;
        } else if removed {
          file := NoView;
        }
      }
    }

    /** One boot pass: every gate at one moment, then the starts, one after
        another, of the machines chosen there. When each comes is `Outage`'s. */
    method Pass(g: Gates, ls: Leases, now: int, wall: int, host: Host) returns (did: PassResult, asked: seq<string>)
      ensures var gated := Gated(g, file, ls, now, wall);
              if gated.Err? then did == PassResult.Refused(gated.error) && asked == []
              else asked == StartsOf(gated.value, host, |gated.value|) && did == Started(EndedWell(asked, host, |asked|))
    {
      asked := [];
      match Gated(g, file, ls, now, wall)
      case Err(why) => did := PassResult.Refused(why);
      case Ok(specs) =>
        if specs == [] {
          did := Started(0);
        } else {
          var n;
          asked, n := Maintain(specs, host);
          did := Started(n);
        }
    }
  }

  /** **Why a boot pass is refused**, the first that holds: the path is off, the
      leases were not read, a restore holds; and of the file, that it is not
      there, not whole, another Core's, older than its bound, or more than a
      minute ahead of the clock. */
  lemma WhyABootPassIsRefused(g: Gates, file: ViewFile, ls: Leases, now: int, wall: int)
    ensures var gated := Gated(g, file, ls, now, wall);
            && (gated == Err(PathOff) <==> g.maxAge == 0)
            && ((gated.Err? && gated.error.LeasesUnread?) <==> g.maxAge > 0 && g.leases.Err?)
            && (gated.Err? && gated.error.LeasesUnread? ==> g.leases == Err(gated.error.why))
            && (gated == Err(Restoring) <==> g.maxAge > 0 && g.leases.Ok? && g.restoring)
            && (g.maxAge > 0 && g.leases.Ok? && !g.restoring ==>
                  && (gated == Err(NotRead) <==> file == NoView)
                  && (gated == Err(NotParsed) <==> file == TornView)
                  && (file.Kept? ==>
                        var age := wall - file.view.askedUnix * SECOND;
                        && (gated == Err(OtherCore) <==> file.view.coreUrl != g.coreUrl)
                        && (gated == Err(TooOld) <==> file.view.coreUrl == g.coreUrl && age > g.maxAge)
                        && (gated == Err(FromTheFuture) <==> file.view.coreUrl == g.coreUrl && age < -60 * SECOND)))
  {
  }

  /** Every gate of a boot pass open, and the view names `id` Running. */
  ghost predicate Opens(g: Gates, file: ViewFile, wall: int, id: string) {
    && g.maxAge > 0 && g.leases.Ok? && !g.restoring
    && file.Kept? && file.view.coreUrl == g.coreUrl
    && -FUTURE_SKEW <= wall - file.view.askedUnix * SECOND <= g.maxAge
    && NamesRunning(file.view.instances, id)
  }

  lemma ChosenOf(specs: seq<InstanceSpec>, ls: Leases, now: int, id: string)
    ensures NamesRunning(ToStart(specs, ls, now), id) <==> NamesRunning(specs, id) && MayRestart(ls, id, now)
  {
    var starts := ToStart(specs, ls, now);
    if NamesRunning(specs, id) && MayRestart(ls, id, now) {
      var i :| 0 <= i < |specs| && specs[i].id == id && specs[i].intent == Running;
      assert specs[i] in starts;
      var k :| 0 <= k < |starts| && starts[k] == specs[i];
    }
    if NamesRunning(starts, id) {
      var k :| 0 <= k < |starts| && starts[k].id == id && starts[k].intent == Running;
      assert starts[k] in specs;
      var i :| 0 <= i < |specs| && specs[i] == starts[k];
    }
  }

  /** **What a boot pass chooses**: the path is on, the leases were read whole, no
      restore holds the agent, the view is this Core's and of a known age within
      its bound, it names the machine Running, and its lease, if it has one, has
      not run out. Each is needed, and nothing else is. */
  lemma WhatABootPassChooses(g: Gates, file: ViewFile, ls: Leases, now: int, wall: int, id: string)
    ensures (Gated(g, file, ls, now, wall).Ok? && NamesRunning(Gated(g, file, ls, now, wall).value, id)) <==>
            Opens(g, file, wall, id) && (id in ls ==> ls[id].deadline > now)
  {
    if file.Kept? {
      ChosenOf(file.view.instances, ls, now, id);
    }
  }
}
