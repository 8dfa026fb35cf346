/**
 The steps of `LeaseRun`, field by field (`src/lease.rs:112-289`,
 `src/heldview.rs:73-98, 200-222`, `src/agent.rs:3854-3935`): who writes each
 file, what turns the machine on and off, what each clock's look is, and when
 each step may come. And that its boot pass allows every start the gates of
 `HeldView` open for.
 */
module LeaseSteps {
  import opened Wrappers
  import opened Wire
  import opened RunLease
  import opened LeaseFile
  import opened LeaseRun
  import HeldView

  /** **Who writes each file**: a pass keeps the view in hand, dated by its own ask,
      and the lease task writes the book as it is then. */
  lemma WhoWritesTheFiles(c: Setting, s: State)
    ensures Can(c, s, KeepView) ==>
              Do(c, s, KeepView).kept == s.held && Some(Do(c, s, KeepView).keptAsked) == s.own && Do(c, s, KeepView).file == s.file
    ensures Can(c, s, WriteFile) ==>
              Do(c, s, WriteFile).file == FileBody(s.leases)
              && Do(c, s, WriteFile).kept == s.kept && Do(c, s, WriteFile).keptAsked == s.keptAsked
  {
  }

  /** An agent's end and start leave both files, and so does a change of its book. */
  lemma ACrashLeavesTheFiles(c: Setting, s: State, base: int)
    ensures Can(c, s, Crash) ==> AreLeft(s, Do(c, s, Crash))
    ensures Can(c, s, Restart(base)) ==> AreLeft(s, Do(c, s, Restart(base)))
  {
  }

  lemma TheBooksChangeLeavesTheFiles(c: Setting, s: State, step: Step)
    requires Can(c, s, step) && (step.Answer? || step.Marks? || step.Forget?)
    ensures AreLeft(s, Do(c, s, step))
  {
  }

  predicate AreLeft(s: State, t: State) {
    t.kept == s.kept && t.keptAsked == s.keptAsked && t.file == s.file
  }

  /** A step that neither writes a file nor changes the book. */
  predicate IsQuiet(step: Step) {
    && !step.KeepView? && !step.WriteFile?
    && !step.Answer? && !step.Forget? && !step.Marks? && !step.Crash? && !step.Restart?
  }

  /** And nothing else touches a file or the book. */
  lemma NothingElseIsWritten(c: Setting, s: State, step: Step)
    requires Can(c, s, step) && IsQuiet(step)
    ensures AreLeft(s, Do(c, s, step)) && Do(c, s, step).leases == s.leases
  {
  }

  /** **What turns the machine on and off**: a pass's start and a chosen one; its
      guest, its removal, a look past its lease, or the timer's past its entry. */
  lemma WhatTurnsItOn(c: Setting, s: State, step: Step)
    requires Can(c, s, step)
    ensures var t := Do(c, s, step);
            && (t.running <==>
                  || step.PassStart? || step.StartChosen?
                  || (s.running && !step.GuestStops? && !step.Gone?
                      && !(step.Look? && c.id in s.leases && !s.leases[c.id].stopped && s.leases[c.id].deadline <= s.host - s.base)
                      && !(step.TimerLook? && Due(s, c.id))))
            && (t.here <==> step.PassStart? || step.Build? || (s.here && !step.Gone?))
  {
  }

  /** **What changes the book**: a pass's own answer, a machine proven gone, a mark,
      and an agent's end and start. A re-read's answer is not among them. */
  lemma WhatChangesTheBook(c: Setting, s: State, header: Option<string>, specs: seq<InstanceSpec>)
    ensures Can(c, s, Answer(header, specs)) ==>
              Do(c, s, Answer(header, specs)).leases ==
              if s.ask.value.reread then s.leases else Applied(s.leases, Reading(s.ask.value.asked, header), specs)
    ensures Can(c, s, Forget) ==> Do(c, s, Forget).leases == s.leases - {c.id}
    ensures Can(c, s, Marks) ==> Do(c, s, Marks).leases == MarkedIn(s.leases, {c.id})
  {
  }

  /** Its end empties it, and its start resumes the file into an empty one. */
  lemma WhatABookBeginsAs(c: Setting, s: State, base: int)
    ensures Can(c, s, Crash) ==> Do(c, s, Crash).leases == map[]
    ensures Can(c, s, Restart(base)) ==> Do(c, s, Restart(base)).leases == ResumedInto(map[], s.file, s.host - base, s.host)
  {
  }

  /** **What is in hand, and from where**: the last answer's view, dated by its ask
      where a pass asked for it, and none once the agent died. */
  lemma WhatIsInHand(c: Setting, s: State, step: Step)
    requires Can(c, s, step)
    ensures var t := Do(c, s, step);
            && t.held == (if step.Answer? then step.specs else if step.Crash? then [] else s.held)
            && t.own == (if step.Crash? || (step.AskView? && !step.reread) then None
                         else if step.Answer? then (if s.ask.value.reread then None else Some(s.ask.value.asked.wall))
                         else s.own)
  {
    if step.Answer? {
    } else if step.Crash? || step.AskView? {
    }
  }

  /** One view is on its way at a time, dated on both clocks as it is asked for. */
  lemma WhatIsOnItsWay(c: Setting, s: State, step: Step)
    requires Can(c, s, step)
    ensures Do(c, s, step).ask ==
            if step.AskView? then Some(Ask(Asked(s.host - s.base, s.host), s.superseded.Some?, step.reread))
            else if step.LoseAnswer? || step.Answer? || step.Crash? then None
            else s.ask
  {
  }

  /** **What a pass may still start**: the machine its own answer named Running, and
      a re-read after it did, until it starts it or asks again. */
  lemma WhatAPassMayStart(c: Setting, s: State, step: Step)
    requires Can(c, s, step)
    ensures var t := Do(c, s, step);
            && (t.cleared <==>
                  if step.Answer? then s.ask.value.reread && s.wanted && NamesRunning(step.specs, c.id)
                  else s.cleared && !step.AskView? && !step.PassStart? && !step.Crash?)
  {
  }

  lemma WhatAPassWants(c: Setting, s: State, step: Step)
    requires Can(c, s, step)
    ensures Do(c, s, step).wanted <==>
            if step.Answer? && !s.ask.value.reread then NamesRunning(step.specs, c.id)
            else s.wanted && !step.Crash? && !(step.AskView? && !step.reread)
  {
  }

  /** **What is chosen, and by what check**: by maintenance or a boot pass, under the
      deadline then held, until it is started, given up or the agent dies. */
  lemma WhatIsChosen(c: Setting, s: State, step: Step)
    requires Can(c, s, step)
    ensures Do(c, s, step).chosen ==
            if step.Maintain? || step.BootPass? then
              Within(if c.id in s.leases then Some(s.leases[c.id].deadline) else None)
            else if step.StartChosen? || step.ChoiceEnds? || step.Crash? then NoStart
            else s.chosen
  {
  }

  /** **What the clocks are**: both move only as time passes; a look, the task's or
      the timer's, is dated on both, and so is the supersede; and the agent's own
      clock starts where it starts. */
  lemma WhatTheClocksAre(c: Setting, s: State, dr: int, dh: int, base: int)
    ensures Can(c, s, Tick(dr, dh)) ==> Do(c, s, Tick(dr, dh)).time == s.time + dr && Do(c, s, Tick(dr, dh)).host == s.host + dh
    ensures Can(c, s, Look) ==> Do(c, s, Look).lookReal == s.time && Do(c, s, Look).lookHost == s.host
    ensures Can(c, s, TimerLook) ==> Do(c, s, TimerLook).lookReal == s.time && Do(c, s, TimerLook).lookHost == s.host
    ensures Can(c, s, Supersede) ==> Do(c, s, Supersede).superseded == Some((s.time, s.host))
    ensures Can(c, s, Restart(base)) ==> Do(c, s, Restart(base)).base == base
  {
  }

  lemma OnlyTimePasses(c: Setting, s: State, step: Step)
    requires Can(c, s, step)
    ensures var t := Do(c, s, step);
            && (!step.Tick? ==> t.time == s.time && t.host == s.host)
            && (!step.Restart? ==> t.base == s.base)
            && (!step.Supersede? ==> t.superseded == s.superseded)
            && (!step.Look? && !step.TimerLook? ==> t.lookReal == s.lookReal && t.lookHost == s.lookHost)
  {
  }

  /** **Where the agent is**: up from its start to its end, and booting until it
      first asks Core. */
  lemma WhereTheAgentIs(c: Setting, s: State, step: Step)
    requires Can(c, s, step)
    ensures var t := Do(c, s, step);
            && (t.up <==> step.Restart? || (s.up && !step.Crash?))
            && (t.booting <==> step.Restart? || (s.booting && !step.AskView? && !step.Crash?))
  {
  }

  /** **What is still to be marked**: the lease a look found past, and stopped the
      machine of, until it is marked or the agent dies. */
  lemma WhatIsToBeMarked(c: Setting, s: State, step: Step)
    requires Can(c, s, step)
    ensures Do(c, s, step).marking <==>
            if step.Look? then c.id in s.leases && !s.leases[c.id].stopped && s.leases[c.id].deadline <= s.host - s.base
            else s.marking && !step.Marks? && !step.Crash?
  {
  }

  // ---- When each step may come ----

  /** **What the world may do**, whatever the agent does: its guest may stop, it may
      be gone, a machine chosen may need no start, an answer may be lost; time
      passes up to the next look, the host's clock at no less than half its rate. */
  lemma WhatTheWorldMayDo(c: Setting, s: State, dr: int, dh: int)
    ensures Can(c, s, GuestStops) && Can(c, s, Gone)
    ensures Can(c, s, Tick(dr, dh)) <==> dr >= 0 && dh + dh >= dr && s.time + dr - s.lookReal <= c.period
    ensures Can(c, s, Supersede) <==> s.superseded == None
    ensures Can(c, s, LoseAnswer) <==> s.ask != None
    ensures Can(c, s, ChoiceEnds) <==> s.chosen != NoStart
    ensures Can(c, s, TimerLook) <==> !s.up
  {
  }

  /** **When the agent may act**: while it runs; a pass only once Core was heard, and
      maintenance between passes, of what the view in hand names Running; a start
      of a pass's only on both its words, a chosen one only of a machine here. */
  lemma WhenTheAgentMayAct(c: Setting, s: State, reread: bool, base: int)
    ensures Can(c, s, Restart(base)) <==> !s.up
    ensures !s.up ==> !Can(c, s, AskView(reread)) && !Can(c, s, KeepView) && !Can(c, s, Build) && !Can(c, s, PassStart)
    ensures !s.up ==> !Can(c, s, Maintain) && !Can(c, s, BootPass) && !Can(c, s, StartChosen) && !Can(c, s, Forget)
    ensures !s.up ==> !Can(c, s, Look) && !Can(c, s, Marks) && !Can(c, s, WriteFile) && !Can(c, s, Crash)
    ensures s.up ==>
              && Can(c, s, Crash) && Can(c, s, WriteFile)
              && (Can(c, s, Look) <==> !s.marking) && (Can(c, s, Marks) <==> s.marking)
              && (Can(c, s, AskView(reread)) <==> s.ask == None && s.chosen == NoStart)
              && (Can(c, s, KeepView) <==> s.own != None)
              && (Can(c, s, Build) <==> !s.booting && s.chosen == NoStart)
              && (Can(c, s, PassStart) <==> s.cleared)
              && (Can(c, s, StartChosen) <==> s.here && s.chosen != NoStart)
              && (Can(c, s, Forget) <==> !s.here && !s.wanted && s.chosen == NoStart)
  {
  }

  /** **What maintenance and a boot pass may choose**, each of a machine whose lease,
      if it has one, has not run out. */
  lemma WhatMayBeChosen(c: Setting, s: State)
    ensures Can(c, s, Maintain) <==>
            && s.up && !s.booting && s.ask == None && !s.wanted && s.chosen == NoStart
            && NamesRunning(s.held, c.id)
            && (c.id in s.leases ==> s.leases[c.id].deadline > s.host - s.base)
    ensures Can(c, s, BootPass) <==>
            && s.up && s.booting && s.chosen == NoStart
            && NamesRunning(s.kept, c.id) && s.host <= s.keptAsked + c.maxAge
            && (c.id in s.leases ==> s.leases[c.id].deadline > s.host - s.base)
  {
  }

  /** **Every start the real gates allow, the runs allow**: a boot pass that chooses
      the machine of the kept view, dated in whole seconds, under a bound no longer
      than the setting's, may choose it here. */
  lemma TheGatesAreWithin(c: Setting, s: State, g: HeldView.Gates, url: string, version: nat)
    requires s.up && s.booting && s.chosen.NoStart? && g.maxAge <= c.maxAge
    requires var file := HeldView.Kept(HeldView.Of(url, View(version, s.kept), s.keptAsked));
             var chosen := HeldView.Gated(g, file, s.leases, Now(s), s.host);
             chosen.Ok? && NamesRunning(chosen.value, c.id)
    requires s.keptAsked >= 0
    ensures Can(c, s, BootPass)
  {
    var held := HeldView.Of(url, View(version, s.kept), s.keptAsked);
    HeldView.WhatABootPassChooses(g, HeldView.Kept(held), s.leases, Now(s), s.host, c.id);
    var i :| 0 <= i < |held.instances| && held.instances[i].id == c.id && held.instances[i].intent == Running;
    assert s.kept[i].id == c.id && s.kept[i].intent == Running;
    assert Unix(s.keptAsked) * SECOND <= s.keptAsked;
  }
}
