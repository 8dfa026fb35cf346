# A provider agent's durable decisions

A provider agent drives a hypervisor for a remote Core. The host, the agent and
Core can each fail at any moment, and the agent keeps a few small files so that
a crash or a partition never leads to a wrong act. This project models those
decisions and proves what they promise.

| part | files |
|---|---|
| Run lease: the header, the book, its file, and whole runs over two clocks | `LeaseHeader`, `RunLease`, `LeaseBook`, `LeaseOrigin`, `LeaseFile`, `LeaseRun`, `LeaseSteps`, `LeaseExact`, `LeaseGap` |
| Clone journal: the create, rollback and recovery steps, a create from end to end, and one recovery pass | `CloneJournal`, `CloneProtocol`, `CloneSafety`, `CloneGap`, `CreateRun`, `Recovery`, `RecoveryRun` |
| Reboot once per token | `Reboot` |
| Held view at boot: the gates, any number of starts in an outage, the handover | `HeldView`, `Maintenance`, `Outage`, `OutageGap`, `Handover` |
| A pass over Core's view: the restore head, the re-read before each act, the acts, the report | `RestoreHead`, `FreshView`, `Reconcile`, `ActsExact`, `Licence` |
| Resumable image download | `Download`, `DownloadRun` |
| Disclosure of the owner's use | `Disclosure`, `DisclosureSum` |
| Packaging checkers | `PyText`, `UnitText`, `UnitCheck`, `UnitApplied`, `UnitSyntax`, `DepInfo`, `PackageHash` |

`Wrappers`, `Wire` and `Order` hold what the parts share. What the source
updates in place is a class whose methods are proved against a function of the
old state; a protocol between processes is a state machine whose steps are one
call or one file write, and its theorems are about every run.

Conventions. Times are integers in nanoseconds and the files keep whole
seconds. JSON is what it parses to, a file is replaced whole, a crash loses
memory and keeps files. What the hypervisor, Core, the disk and the clocks
answer are parameters, so each theorem holds for every answer. The digest of a
download and the reading of a disk size are function parameters.
`dafny verify dfyconfig.toml` checks the whole project.

## What the proofs ask of the world

- Lease runs: real time and the host's clock advance together, the host's at no
  less than half speed; a look is made at least once per period, and the stop of
  a machine it finds past its lease is answered; Core names the machine Running
  only in answers to views asked for before it superseded it, and lists it there.
- Lease runs: no step is taken that `LeaseRun.Careful` rules out. `LeaseExact`
  proves each of them needed, state by state; `LeaseRun.OffWhenEveryStartIsInTime`
  says the same in the host's own terms.
- Clone runs: a new VMID is one no guest has; only the clone call writes stamps; a
  clone whose task id did not reach the journal is listed, and so is every clone
  of an id whose create could not read the journal.
- Reboots: Core never returns to an earlier token.
- Outages: for the careful runs, a start finds a torn or missing lease file torn
  or missing, and a view that is to be retired can be renamed or removed.

## Where the code and its promise part

Each is proved, by a concrete run or input or by a theorem that says exactly when
the promise holds.

- `may_restart` is asked once for a whole list, and the last machine's start may
  come minutes later. A machine chosen in time and started after its deadline,
  once a look has marked it stopped, runs past the lease bound: in maintenance
  (`LeaseGap.ALateStartRunsPast`, `LeaseExact.WhenAStartIsTooLate`) and at boot
  (`OutageGap.ALateStartStartsAnExpiredMachine`). A pass's own start can be as late
  (`LeaseGap.ALatePassStartRunsPast`, `LeaseExact.WhenAPassStartIsTooLate`).
- A look holds no lock between a stop and its mark, and marks whatever lease is
  then held: one renewed in between is marked while its machine runs, and nothing
  stops that machine again (`LeaseGap.ARenewalBeforeTheMarkRunsPast`).
- An agent that dies after starting a machine and before the next write of the
  lease file leaves the host timer nothing to stop it by
  (`LeaseGap.AMachineNotYetInTheFileRunsPast`, `LeaseExact.WhenACrashRunsPast`).
- A re-read's view is kept in hand and its lease is not applied. Maintenance from
  it starts a machine under no lease (`LeaseGap.AReReadMaintainedRunsPast`,
  `LeaseExact.WhenMaintenanceRunsPast`).
- An id of white space alone in the book makes the lease file refused whole at
  the next start (`LeaseFile.ReadsBackUnlessBlank`).
- A lease file emptied, rather than torn, is read as no lease at all
  (`OutageGap.AnEmptiedFileStartsAnExpiredMachine`); a view neither renamed nor
  removed is read by a later start (`OutageGap.AViewNotRetiredStartsAnExpiredMachine`).
  `Outage.WhenAPastEntryIsChosen` says for which file and view a start of the
  agent chooses a machine whose lease is past.
- A rollback reads the stamp and then stops and destroys. A guest deleted and its
  number reused between the two is taken without the stamp
  (`CloneSafety.OnlyWhatItsStampWasReadOn` says exactly when).
- A create's claim and configuration are put on by number, and so is a claim retaken
  by recovery: whatever guest then stands there is marked
  (`CreateRun.WhateverIsThereIsMarked`).
- A clone accepted, unrecorded and not yet listed is cloned twice
  (`CloneGap.ACloneListedLateIsClonedTwice`), and so is one not yet listed when the
  journal's directory cannot be read, which is taken for an empty journal
  (`CloneGap.WhenAnUnreadJournalClonesTwice`).
- A record of the clone journal is rewritten in place, and one that does not parse
  is passed over by every reader. A rewrite that fails or is cut after its
  truncation loses what is owed: a disk (`CloneGap.ATornRewriteLeavesADisk`) or a
  standing rollback (`CloneGap.ADeathInARewriteDropsARollback`).
- A new VMID is asked of the hypervisor alone, so a number whose rollback is still
  owed can be given again, and its record written over
  (`CloneGap.ANumberGivenAgainLosesARollback`).
  `CloneSafety.ARecordGoesOnlyWhenSettled` says these are the only two ways.
- A reboot record that cannot be read is taken for none, and the machine is
  rebooted again for one token (`Reboot.ARecordNotReadRebootsAgain`,
  `Reboot.AtMostOncePerToken`).
- A guest that booted within five seconds before a reboot request is taken for
  rebooted (`Reboot.HappenedMeansBootedSince`).
- A worker just built is started on its build's re-read whatever its destination
  (`Licence.AStoppedWorkerIsStarted`), though a machine's start waits for a
  second one and for Running.
- Told `unchanged` with nothing in hand, a pass acts on a view it does not hold.
  An older one can then license its acts where the restore head is not armed, or
  where the older view carries revision zero or Core names and ends a restore in
  between (`Licence.WhenAnActMayBeOnAnOlderView`,
  `Licence.AViewNotHeldBoundsNothing`).
- A partial that could not be removed is taken for another digest's after an
  unanswered request (`DownloadRun.WhenARemovalMatters`), and a transfer cut
  after its last byte is fetched again whole (`DownloadRun.ResumesUnlessItAllCame`).
- A unit line of a free key that ends in a backslash passes the checker, and
  systemd (systemd.syntax(7)) reads the required line after it as its end
  (`UnitSyntax.ABackslashSwallowsARequiredLine`, `UnitSyntax.JoinedIsTheLines`).
- A last path ending in a backslash comes back with a space instead, and a path
  with a tab is split (`DepInfo.TheSamePathsComeBack`); a path with a newline can
  be hashed as two files (`PackageHash.ANewlineListsTwoFiles`).

## Model

| member | source | states |
|---|---|---|
| LeaseHeader.Parse | src/lease.rs:103-110 | A header read strictly gives a lease of more than zero seconds, or none at all |
| LeaseHeader.HeaderReadsBack | src/lease.rs:100-110 | Every header Core prints (T and the ids, spaced) is read back as that T and those ids |
| LeaseHeader.IdsAreWords | src/lease.rs:103-110 | Whatever the header says, every id read from it is non-empty and has no space |
| LeaseHeader.WordsOfBoth | src/lease.rs:103-104 | A header cut at a space has the words of its two parts, and a text with no space is one word, unless it is empty |
| LeaseHeader.WhenANumberIsRead | src/lease.rs:105 | A word is read as a number exactly when it is digits, a plus before them or not, that 64 bits hold |
| LeaseHeader.WhatAHeaderSays | src/lease.rs:103-110 | Any header is T and ids exactly when its first word reads as that positive T and its other words are those ids |
| RunLease.Given | src/lease.rs:135-141 | A lease given counts T from the ask, so it never ends at or before it, and starts unstopped |
| RunLease.OnlyRunningMovesADeadline | src/lease.rs:127-156 | A view not naming an id Running never moves its deadline, and ends its lease exactly when it was stopped, was past its deadline at the ask, and is not named at all |
| RunLease.RunningRenewsOrReleases | src/lease.rs:127-156 | Named Running: a lease is held exactly when listed; its deadline is the later of the one held and the ask plus T, and where this view renews it both its clocks' deadlines are T seconds after that clock's ask, whatever T is |
| RunLease.OneOfThree | src/lease.rs:166-184 | A held lease is exactly one of restartable, expired and to be stopped, or stopped past its deadline; a look takes the answered ones out of the second and changes who may restart of none |
| RunLease.FileBody | src/lease.rs:188-199 | The file's entries are the book's ids in order, each with its wall deadline in whole seconds |
| RunLease.LookedByEach | src/lease.rs:266-283 | Marking, one by one, the expired ids whose stop was answered is one look over the whole book |
| LeaseOrigin.EveryDeadlineWasGiven | src/lease.rs:115-251 | Over any run of readings, looks, resumptions and forgettings, every lease in the book has both its deadlines, the monotonic and the wall one, from one listing that named the machine Running (its ask plus T on each clock) or from one resumed entry |
| LeaseOrigin.EveryEntryWasGiven | src/lease.rs:188-199 | Over any such run, every entry the file is given is, in whole seconds, the wall ask plus T of a view that listed the machine, or the entry it was resumed from |
| LeaseBook.Book.Heard | src/lease.rs:115-117 | The last reading heard is the one pending |
| LeaseBook.Book.Renew | src/lease.rs:120-125 | The pending reading is applied once, to the view it answered, and is then gone |
| LeaseBook.Book.Apply | src/lease.rs:127-156 | The loop over the view and the final retain leave exactly the book the id-by-id rule gives |
| LeaseBook.Book.Resumed | src/lease.rs:231-251 | A file unread leaves the book and says why; one read leaves the book with each entry taken up unless a later deadline is held, and the number taken up is returned |
| LeaseBook.Book.Forget | src/lease.rs:161-163 | A machine proven gone holds no lease; no other changes |
| LeaseBook.Book.MarkStopped | src/lease.rs:180-184 | Whatever lease the id holds is marked stopped, deadline untouched |
| LeaseBook.Book.StopExpired | src/lease.rs:266-283 | Every expired id is asked to stop, and exactly the answered ones are marked |
| LeaseBook.Book.Check | src/lease.rs:266-289 | A look, and the file given the book after it |
| LeaseFile.TheLaterIsKept | src/lease.rs:239-249 | Resuming any file into any book keeps exactly the ids of both, each with the latest deadline offered, however often the file names it |
| LeaseFile.HowManyAreTakenUp | src/lease.rs:239-250 | The number returned is that of the entries that run later than the lease held and than every entry of their id before them |
| LeaseFile.WhatIsNotOutrunStays | src/lease.rs:244-246 | A lease that no entry outruns is left as it is, its mark and its wall deadline with it |
| LeaseFile.WhenAFileIsUnread | crates/onv-agent-lib/src/run_lease.rs:24-41 | A file is refused exactly when it is missing, cannot be read, is not JSON or names an id of white space alone; said of the file |
| LeaseFile.ResumedAfresh | src/lease.rs:231-251 | Into an empty book, each entry's deadline on this process's clock, past ones past now |
| LeaseFile.ReadsBackUnlessBlank | crates/onv-agent-lib/src/run_lease.rs:24-41 | The file written is read back whole, unless an id of the book is all white space: then it is refused whole |
| LeaseFile.WrittenAndResumed | src/lease.rs:188-251 | Written and resumed: the same ids, no deadline later, each less than a second sooner, past ones past at once |
| LeaseFile.BookIsTheFile | src/lease.rs:188-199 | A book holding exactly a file's ids and seconds is written as that same file |
| LeaseFile.RewrittenIsTheSame | src/lease.rs:231-289 | One start that hears no view rewrites the file it read, whatever its clocks and stops |
| LeaseFile.StartsKeepTheFile | src/lease.rs:231-289 | Any number of such starts, each on the file the one before wrote, keep the file |
| LeaseRun.StepKeeps | src/lease.rs:9-37 | Every careful step of agent, Core, timer, host and clock keeps the lease invariant: whatever runs is under a lease no look has overtaken, whose deadline is bounded by the supersede plus T |
| LeaseRun.OffBeforeCoreStartsAnother | src/lease.rs:9-37 | In every careful run, later than 2T and one task period of real time after Core superseded the machine, it does not run here: host clock at half speed or more, answers lost or late, starts minutes after their choice, crashes and restarts included |
| LeaseRun.OffWhenEveryStartIsInTime | src/lease.rs:9-37 | The same in a host's own terms: at a crash a machine here is in the lease file, maintenance starts it under a lease, every start takes effect before the deadline of its lease or of its check, and nothing is renewed or started between a look's stop and its mark |
| LeaseExact.WhenACrashRunsPast | src/lease.rs:276-289 | From every state a careful run reaches, a crash may be followed by a careful run past the bound if and only if the machine is here, the lease file does not hold it, and it runs or the kept view would start it |
| LeaseExact.WhenAChosenStartRunsPast | src/instance.rs:1219-1275 | A maintenance or boot start may be followed by one if and only if a look has stopped the machine since it was chosen |
| LeaseExact.WhenAStartIsTooLate | src/agent.rs:3864-3871 | A look may come just before that start and the two be followed by one if and only if a look has stopped the machine already or the deadline its check saw has come |
| LeaseExact.WhenAPassStartIsTooLate | src/instance.rs:298-325 | The same for a pass's start and the deadline of the lease then held |
| LeaseExact.WhenMaintenanceRunsPast | src/agent.rs:3854-3874 | Maintenance may begin one if and only if the machine is here and the book holds no lease for it |
| LeaseGap.AMachineNotYetInTheFileRunsPast | src/lease.rs:282-289 | Started, and the agent dead before the next write of the lease file: a concrete run past the bound |
| LeaseGap.ALateStartRunsPast | src/agent.rs:3864-3871 | Chosen by maintenance in time, marked stopped by a look, then started: a concrete run past the bound |
| LeaseGap.ALatePassStartRunsPast | src/instance.rs:298-310 | Named Running, its lease run out before its pass starts it: a concrete run past the bound |
| LeaseGap.ARenewalBeforeTheMarkRunsPast | src/lease.rs:180-184 | Stopped by a look, renewed and started by a pass, and the renewed lease then marked stopped: a concrete run past the bound |
| LeaseGap.AReReadMaintainedRunsPast | src/agent.rs:4601-4605 | Built under Stopped, named Running by a re-read whose lease is not applied, and maintained from it: a concrete run past the bound |
| LeaseSteps.WhatTurnsItOn | src/lease.rs:9-37 | In the runs, the machine is turned on by a pass's start or a chosen one alone, and off by its guest, its removal, a look past its lease or the timer's past its entry |
| LeaseSteps.WhatMayBeChosen | src/agent.rs:3854-3874 | Maintenance and a boot pass may choose it exactly when the view in hand, or the kept one within its bound, names it Running and its lease, if any, has not run out |
| LeaseSteps.TheGatesAreWithin | src/heldview.rs:144-217 | Every start the boot pass's gates allow, the runs allow: the theorems over runs cover the code's boot pass |
| CloneSafety.StepKeeps | src/instance.rs:587-970 | Every step of a create, a rollback, a recovery, a crash or of others keeps every stamped guest and every record at one number per id |
| CloneSafety.AtMostOneClone | src/instance.rs:587-970 | In every reachable state at most one guest carries an id's stamp, whatever rewrites of records were torn and whatever numbers given again |
| CloneSafety.OnlyWhatItsStampWasReadOn | src/instance.rs:1467-1542 | The agent stops or destroys only the guest whose stamp it read for this record in this call; it still carries that stamp exactly when nobody deleted it and reused its number since |
| CloneSafety.ARecordGoesOnlyWhenSettled | src/instance.rs:1331-1444 | A record ceases to be read before its step settles it (what is at its number, if ours, carries the claim, the stamp and its configuration; its claim is seen; nothing is there, after a rollback no volume either; or it is not proven this clone) if and only if a rewrite of it was torn or a create given its number wrote over it |
| CloneSafety.ARecordStandsUntilThen | src/instance.rs:1321-1445 | Over any run, a record stands for its machine until some step settles it, tears it or writes over it |
| CloneSafety.AStandingRecordBlocks | src/instance.rs:587-631 | While a record can be read, its id is not cloned at another number, nor said lost, nor said gone, but by a call whose reading of the journal failed |
| CloneSafety.AClaimedMachineIsKept | src/instance.rs:1376-1432 | A machine carrying its claim is never destroyed, retagged or restamped on account of a Cloning record, over any run |
| CloneGap.ACloneListedLateIsClonedTwice | src/instance.rs:1364-1369 | Without prompt listing, a crash between acceptance and the second record write clones the machine twice: a concrete run |
| CloneGap.WhenAnUnreadJournalClonesTwice | crates/onv-driver-proxmox/src/pending.rs:128-139 | From every reachable state, a create that cannot read the journal may end in two machines of its id if and only if a clone of it is not listed yet |
| CloneGap.ATornRewriteLeavesADisk | src/instance.rs:1467-1530 | The rollback's record torn by a full disk, its machine destroyed and its disk not looked for: nothing is owed and the disk stays: a concrete run |
| CloneGap.ADeathInARewriteDropsARollback | crates/onv-agent-lib/src/names.rs:389-401 | The agent dies between a rewrite's truncation and its write, and a claimed, unconfigured machine stands under no record: a concrete run |
| CloneGap.ANumberGivenAgainLosesARollback | src/instance.rs:719-775 | A create is given the number of a rollback whose disk is still owed, and writes over its record: a concrete run |
| CreateRun.WhatIsAskedFirst | src/instance.rs:587-631 | In any run, nothing is said lost and no number taken before the listing for its claim, the journal and the listing for its stamp were asked, in that order, and found nothing, but for a journal that could not be read |
| CreateRun.AClonesEnd | src/instance.rs:777-812 | A clone not seen to end keeps its record and returns; one that ended badly is given up; one that ended well goes on, its disks on record where they were read |
| CreateRun.WhatACreateLeaves | src/instance.rs:777-970 | For whatever its calls are answered, the machine stands claimed, configured and started as far as each took effect, each made only where the one before succeeded; the record is gone exactly when it is complete, and it is given up exactly when some call was not seen to succeed |
| CreateRun.ACreateUndoneLeavesNothing | src/instance.rs:963-970 | A create given up, with its rollback answered in full, leaves no guest at its number, no record and none of its disks, and everything else as it was |
| CreateRun.WhatAnUnansweredCreateDoes | src/instance.rs:765-812 | What ends a create before its rollback: a record not written, an acceptance or an end not seen |
| CreateRun.WhatAnUnansweredRollbackDoes | src/instance.rs:1467-1542 | What ends a rollback or a settling early, and that it touches nothing then |
| CreateRun.WhateverIsThereIsMarked | src/instance.rs:814-927 | A claim, a configuration and a retaken claim are put on by number: whatever guest then stands there carries them |
| Recovery.Agent.CloneVolumesLeft | src/instance.rs:1566-1574 | The recorded volumes still there after one more removal, or nothing when they could not be looked for |
| Recovery.Agent.AbandonClone | src/instance.rs:1467-1542 | Gone exactly when the stamp was read, the destroy seen to succeed and every recorded volume gone; else what stays, and what the record then says, or that it can be read no more |
| Recovery.Agent.Settle | src/instance.rs:1331-1444 | One record settled as the table says, and nothing at any other number changed |
| Recovery.Agent.RecoverPending | src/instance.rs:1321-1445 | The whole pass settles every record, each as if it were alone |
| Recovery.ProgressIsMade | src/instance.rs:1321-1574 | A pass answered in full leaves the journal empty; each record answered in full goes, none is added, and the count strictly falls when one does |
| Recovery.WhatAPassDrops | src/instance.rs:1321-1545 | A record is gone after a pass if and only if the table settled it or its rollback was asked for again and its rewrite was torn |
| Recovery.AnOwedRollbackStands | src/instance.rs:1352-1354 | A rollback owed to a guest that still carries its stamp after a pass is still on record, but where its rewrite was torn |
| Recovery.AnAnsweredRollbackIsDone | src/instance.rs:1467-1542 | Answered in full, a rollback owed leaves no guest with its stamp at its number |
| Recovery.AProvenCloneIsTakenBack | src/instance.rs:1376-1432 | A clone proven its record's, unclaimed or not configured, is rolled back by a pass answered in full, and still on record by any other |
| Recovery.WhatARecordLeavesOn | src/instance.rs:1321-1545 | A record leaves only on four grounds, read off the worlds and the answers: the machine stands, claimed and configured; nothing is there and no volume left; it is not this record's; or a rewrite was torn |
| RecoveryRun.SettlingIsARun | src/instance.rs:1331-1444 | Settling one record is a run of the clone protocol's steps from the same host to the same host |
| RecoveryRun.APassIsARun | src/instance.rs:1321-1545 | A whole pass is such a run, so what holds of every reachable host holds after it: at most one machine per id |
| Recovery.OthersAreLeft | src/instance.rs:1376-1432 | A guest at no record's number, without the record's stamp, or claimed under a clone's record is left exactly as it was |
| Reboot.HappenedMeansBootedSince | crates/onv-driver-proxmox/src/reboots.rs:75-77 | The uptime test passes exactly when the guest booted no more than five seconds before the request |
| Reboot.Journal.Pass | src/instance.rs:387-431 | One pass, its record read or not, dying or failing anywhere, leaves this machine's record, requests and echoes as the rule says, and no other machine's touched |
| Reboot.AtMostOncePerToken | src/instance.rs:387-431 | Over any run in which Core never returns to a token, a reboot is asked for more than once per machine and token if and only if some pass carrying it, after an earlier request, could not read its record and went on |
| Reboot.AtMostOnceWhereRead | src/instance.rs:387-431 | Where every record is read, at most once per machine and token |
| Reboot.ARecordNotReadRebootsAgain | crates/onv-driver-proxmox/src/reboots.rs:45-48 | A record that cannot be read is taken for none, and the machine is rebooted again for one token: a concrete run |
| Reboot.EchoedOnlyWhenSeen | src/instance.rs:387-431 | Over any run, a token echoed had, in that pass or an earlier one that carried it, its uptime test passed or its request's task ended well |
| Reboot.WhenAPassEchoes | src/instance.rs:387-431 | A pass echoes exactly when it finds its token's record done, or sees the reboot happen and gets that on record |
| Reboot.WhenATokenIsEchoed | src/instance.rs:387-431 | Over any run, a token is echoed if and only if some pass found it done or saw it happen and got that on record |
| Reboot.AReturnedTokenRebootsAgain | src/instance.rs:394-400 | A token withdrawn and sent again reboots the machine again: a concrete run |
| Maintenance.Maintain | src/instance.rs:1219-1275 | The starts asked for are, in order and once each, exactly the machines meant to run, found, called stopped by their node and ready within the gate's looks; how many ended well is counted |
| Maintenance.WhatIsStartedAgain | src/instance.rs:1219-1275 | A start is asked for an id exactly when a machine of it is meant to run and its host says it is there, stopped and ready |
| Maintenance.RestartedIsTheirNumber | src/instance.rs:1261-1275 | The count is the number of starts asked for that ended well |
| HeldView.Of | src/heldview.rs:73-80 | The kept view has the view's ids and intents in order, and the ask in whole seconds |
| HeldView.ToStart | src/heldview.rs:168-175 | Exactly the kept machines of intent Running whose lease, if any, has not run out |
| HeldView.Store.Write | src/heldview.rs:84-98 | The file is the view written, or what it was |
| HeldView.Store.Retire | src/heldview.rs:113-127 | The view is out of use when either way to retire it works, else it stays |
| HeldView.Store.Pass | src/heldview.rs:200-222 | A refused gate starts nothing; otherwise the starts asked for are those maintenance asks for of the machines chosen at the gate |
| HeldView.WhatABootPassChooses | src/heldview.rs:144-217 | An id is chosen if and only if the path is on, the leases were read, no restore holds, the view is this Core's, of a known age in its bound and names it Running, and its lease has not run out at that moment |
| HeldView.WhyABootPassIsRefused | src/heldview.rs:144-212 | Which refusal a boot pass gives, exactly, for every gate and every state of the file |
| Outage.OnlyWhatTheViewAndTheLeasesAllow | src/heldview.rs:104-222 | Over any number of starts in one outage, a boot start is of a machine the kept view names Running, in no start after one that found the lease file unread, and its entry in the last whole lease file is past if and only if the start comes at or after the deadline its check saw |
| Outage.WhatABootStartStarts | src/heldview.rs:104-222 | The same of any run, careful or not: a machine the found file holds has a past entry exactly when its start is late; one it does not hold was chosen under no lease |
| Outage.WhenAPastEntryIsChosen | src/heldview.rs:200-217 | From any state of an outage, the next start of the agent chooses a machine whose entry is past if and only if it reads a whole lease file that does not hold it and a view, not retired, that every gate takes and that names it Running |
| Outage.EachInItsTurn | src/instance.rs:1219-1275 | Through whatever comes in one boot pass, what is still to start is what was chosen, in order, less one for each start asked for |
| OutageGap.AViewNotRetiredStartsAnExpiredMachine | src/heldview.rs:113-127 | When neither rename nor removal works, a later start's boot pass starts a machine whose lease had run out: a concrete run |
| OutageGap.AnEmptiedFileStartsAnExpiredMachine | crates/onv-agent-lib/src/run_lease.rs:24-31 | An emptied lease file is read as no lease at all, not as unread: a concrete run |
| OutageGap.ALateStartStartsAnExpiredMachine | src/heldview.rs:213-217 | Chosen with ten seconds of its lease left, stopped by a look, and then started: a concrete careful run |
| Handover.EveryStartIsBeforeFinishReturns | src/heldview.rs:234-264 | In every interleaving, every boot start is asked for before finish returns |
| Handover.OnePassForEachFreshSignal | src/heldview.rs:234-254 | From any state, the passes begun are the signals that found none waiting, but the one still due; none is begun after the stop |
| Handover.AtMostOneMore | src/heldview.rs:231-254 | Any number of signals during a pass cause at most one more pass |
| Handover.PassesOfABoot | src/heldview.rs:234-254 | Over a whole boot, as many passes as signals that found none waiting, but the one still due |
| Handover.FinishCanReturn | src/heldview.rs:257-264 | From any state after the stop, the boot task's own steps end it and finish returns, beginning no pass |
| Handover.AStateIsItsHistory | src/heldview.rs:234-264 | After any interleaving: signals, starts and passes are counted, and the boot task waits, passes or has ended by what it last took |
| Handover.WhenAStepMayCome | src/heldview.rs:234-264 | Which steps may come next, after any interleaving, said of the steps before it alone |
| RestoreHead.NothingBelowTheHead | crates/onv-core-link/src/restore.rs:181-253 | Armed, while Core ends no restore in between, no view below one acted on is acted on, but for one of revision zero |
| RestoreHead.OnlyCoreEndsIt | crates/onv-core-link/src/restore.rs:192-201 | A restore is left only where Core named one and then names none; one this agent noticed, only after Core named one |
| RestoreHead.WhenARestoreHolds | crates/onv-core-link/src/restore.rs:181-253 | An armed head enters a restore exactly when Core names one, the view is below it or an attempt torn down is wanted again; one held ends exactly when Core named one and names none; and what Core names is held |
| RestoreHead.ANamedRestoreHolds | crates/onv-core-link/src/restore.rs:181-201 | Through any run of readings that name one, an armed head is in the restore last named |
| FreshView.Find | src/agent.rs:4609-4614 | The first spec of an id, found exactly when the view names it |
| FreshView.Reader.SeenNow | src/agent.rs:4581-4615 | A re-read could not be asked, or is read against the restore head and says what the view now in hand says; in a restore, with nothing in hand or on an older view it says nothing and leaves the view in hand |
| FreshView.NeverBack | src/agent.rs:4581-4605 | No run of re-reads lowers the version of the view in hand or loses it |
| FreshView.NothingIsSaidInARestore | src/agent.rs:4581-4605 | A re-read answered with a restore's name, the head armed, says nothing and leaves the view in hand |
| FreshView.AnInstancesWordIsItsViews | src/agent.rs:4606-4615 | What a re-read says of a machine is its intent and built mark in the first spec of it in the view then in hand |
| FreshView.TheLastEightAreKept | src/worker.rs:58-83 | The answers kept are the last eight |
| FreshView.AWorkersWordIsItsViews | src/worker.rs:58-83 | A worker read from a full answer is built exactly as that answer sends it |
| FreshView.WhatIsNotKeptReadsAsBuilt | src/agent.rs:4606-4614 | A worker whose view's answer is no longer kept reads as built, so nothing is built on it |
| Reconcile.Tell | src/agent.rs:4241-4277 | What was not looked at is left out and counted; a failure is reported as an error and counted; the rest is reported |
| Reconcile.Incompleteness | src/agent.rs:1343-1357 | No reason exactly when nothing was unobserved, and one reason for each kind that was |
| Reconcile.Agent.Delete | src/teardown.rs:631-652 | A claimed guest is destroyed only when the view read again still names it Absent |
| Reconcile.Agent.Converge | src/instance.rs:298-340 | A stopped machine meant to run is started only when the view read again names it Running and its gate opens; one not ready is told as held, and a worker's fails |
| Reconcile.Agent.Create | src/instance.rs:719-1012 | A machine is created, started only on a second fresh view and once ready, and rolled back when any step fails |
| Reconcile.Agent.Instance | src/agent.rs:4162-4239 | One desired machine's whole branch: refusals, re-reads, acts and end |
| Reconcile.Agent.CreateWorker | src/worker.rs:635-860 | A worker sent built is lost, one not known is not looked at, one not sent built is built on a fresh view, started once ready, and rolled back when any step fails |
| Reconcile.Agent.Worker | src/agent.rs:3996-4047 | One desired worker's whole branch |
| Reconcile.Agent.Each | src/agent.rs:4160-4340 | Either result loop: the statuses and the count are those of the items, each taken on what the one before left |
| Reconcile.Agent.Pass | src/agent.rs:3994-4462 | The two loops, workers then instances, and a report whose reasons are none exactly when neither loop counted anything |
| Reconcile.Agent.Reconcile | src/agent.rs:3832-3935 | No view, or one in a protocol not spoken: no report; the view taken read against the restore head: in a restore, a report of nothing and no act; else the loops on it |
| Reconcile.ReportedOrCounted | src/agent.rs:4241-4340 | Every item is reported or counted; when none is counted, the statuses are the items', in order |
| Reconcile.CompleteIsEveryItemSeen | src/agent.rs:4400-4445 | Complete exactly when no item was left out, unread or failed; then the reported ids are exactly the desired ids in order, and no status stands for the agent's failure |
| Reconcile.WhatIsReported | src/agent.rs:4241-4340 | A status is in the report exactly when some item of its id was told of in that state |
| Reconcile.WhatIsCounted | src/agent.rs:4241-4340 | The count is the number of items left out, failed or of a destination not known |
| Reconcile.WhatAnEndSays | src/agent.rs:4162-4275 | An item told of had every step of its answered; one seen and then failed stands, and is told as it was before any act |
| Reconcile.EveryActIsReported | src/agent.rs:3994-4340 | Every machine or worker a pass acted on has a status in its report |
| ActsExact.WhatAReReadAllows | src/agent.rs:4549-4615 | A re-read allows a delete, a start or a build exactly when the view then in hand names the id Absent, Running, or to be built |
| ActsExact.WhatStandsDoes | src/instance.rs:298-340 | A start of a standing item is asked for if and only if it stands stopped, steady and ready, its destination is Running and its re-read says Running; it is told Up if and only if it was running or that start was answered |
| ActsExact.WhatADeleteDoes | src/teardown.rs:631-652 | A destroy is asked for if and only if the guest is claimed and the re-read says Absent, and the item is told gone if and only if it was answered or there was nothing |
| ActsExact.WhatACreateDoes | src/instance.rs:719-1012 | Which acts a create asks for, exactly, and when the machine is told Up |
| ActsExact.WhatAWorkersCreateDoes | src/worker.rs:635-860 | The same for a worker |
| ActsExact.WhatAnInstanceAsks | src/agent.rs:4162-4239 | For every desired machine, exactly which re-reads and acts it asks for, in order |
| ActsExact.WhatIsToldOfAnInstance | src/agent.rs:4162-4277 | What is told of a desired machine, exactly, state by state |
| ActsExact.WhatAWorkerAsks | src/agent.rs:3996-4047 | For every desired worker, exactly which re-reads and acts it asks for, in order |
| ActsExact.WhatIsToldOfAWorker | src/agent.rs:3996-4047 | What is told of a desired worker, exactly |
| ActsExact.WhatAPassRuns | src/agent.rs:3994-4340 | A pass gives every worker and every machine its turn, in order, on what the one before left |
| ActsExact.WhatAPassGoesBy | src/agent.rs:3832-3935 | The view a pass goes by, and what it then has in hand, for every answer |
| ActsExact.APassInARestore | src/agent.rs:3902-3935 | Answered with a restore's name, the head armed, a pass takes no view to act on |
| Licence.EveryActIsLicensed | src/agent.rs:4549-4615 | Every build, gated start and destroy the two loops ask for follows a re-read made after the pass took its view, which licenses it; a rollback destroys only what its own create just built |
| Licence.ALicenceIsAView | src/agent.rs:4549-4604 | A licence is a view in hand, the agent held by no restore once it was read, never below the version held, naming the id with the act's intent and, for a machine's build, not built |
| Licence.WhenAnActMayBeOnAnOlderView | src/agent.rs:3892-3935 | An act can be on a view older than the pass's own if and only if the pass acts, was told unchanged with nothing in hand, and its view is not of revision zero; where Core names no restore and views carry their revision, if and only if the restore head is not armed too |
| Licence.AViewNotHeldBoundsNothing | src/agent.rs:3894-3901 | Told unchanged with nothing in hand, and not armed, the view fetched again is not held, and an older one licenses a destroy: a concrete pass |
| Licence.AStoppedWorkerIsStarted | src/worker.rs:829-835 | A worker whose destination is Stopped is started by the pass that builds it: a concrete pass |
| Download.Store.Prepare | src/agent.rs:444-463 | What may be resumed is kept and its length returned; anything else is cleared and the sidecar rewritten |
| Download.Store.ReadBack | src/agent.rs:502-520 | The partial read back a buffer at a time is the partial, whole |
| Download.Store.Stream | src/agent.rs:545-564 | However the body is chunked, what was hashed is what the partial holds |
| Download.Store.DownloadArtefact | src/agent.rs:433-610 | One attempt's files and result, for every answer, cut and removal, a partial that cannot be opened and an image that cannot be renamed |
| DownloadRun.WhenAnAttemptSucceeds | src/agent.rs:433-610 | For every server, an attempt succeeds if and only if the body ended, has the digest and length wanted, and the rename worked; the destination then holds it, and is otherwise what it was |
| DownloadRun.WhyAnAttemptFails | src/agent.rs:433-610 | Which failure an attempt gives, exactly, for every server and disk |
| DownloadRun.WhatAFailedAttemptLeaves | src/agent.rs:566-608 | What a cut, a wrong body or a failed rename leaves of the partial and its sidecar |
| DownloadRun.AWrongTransferIsNotResumed | src/agent.rs:592-605 | After a wrong body nothing is resumed, where either file could be removed |
| DownloadRun.ChunksInOrder | src/agent.rs:545-564 | The bytes written are the chunks' in the order they came |
| DownloadRun.AppendedOnlyToItsOwn | src/agent.rs:444-463 | Over any run in which no removal that matters fails, a partial is resumed only if every byte of it was fetched for the digest now wanted |
| DownloadRun.WhenARemovalMatters | src/agent.rs:449-463 | A step breaks that exactly when a partial not its own is neither removed nor truncated by an answer, and its sidecar names another digest |
| DownloadRun.APartialNotRemovedIsTakenForAnother | src/agent.rs:449-463 | A failed removal and an unanswered request leave one digest's bytes under another's name: a concrete run |
| DownloadRun.OnlyWhatWasPublished | src/agent.rs:590-608 | Whatever the servers send, the image only ever becomes content of the digest and length of an attempt |
| DownloadRun.ThePartialIsAPrefix | src/agent.rs:487-585 | Against an honest server the partial is always a prefix of the artefact its sidecar names |
| DownloadRun.ACompletedAttemptSucceeds | src/agent.rs:590-609 | Against an honest server a body that ends is the image, and the attempt fails only where the last rename does |
| DownloadRun.NoByteIsFetchedTwice | src/agent.rs:480-526 | While ranges are honoured and something is missing, the partial is everything received, end to end |
| DownloadRun.ResumesUnlessItAllCame | src/agent.rs:457-463 | After a cut the next attempt resumes exactly when something came and something is missing; a cut after the last byte costs the whole image |
| Disclosure.OwnerUse.Observe | src/disclosure.rs:90-118 | A guest that can be read adds exactly what it takes; a refused one changes nothing |
| Disclosure.OwnerUse.ObserveDisks | src/disclosure.rs:113-115 | The volumes' sizes are added storage by storage |
| Disclosure.OwnerUse.Add | src/disclosure.rs:120-127 | Another listing's use is added, every resource and storage |
| Disclosure.Commit | src/disclosure.rs:133-142 | Each resource's intrusion, disk over the contributed storages only, vCPUs cast to 32 bits |
| Disclosure.WhichLinesAreVolumes | src/disclosure.rs:154-161 | A configuration line is a volume exactly when it is rootfs or one of the five buses and a number |
| Disclosure.WhichStorageALineNames | src/disclosure.rs:162-168 | The storage is what stands before the first colon, when that is something, is no path and comes before any comma |
| Disclosure.WhatALineGives | src/disclosure.rs:154-171 | A line gives its storage and size exactly when it is a volume's and both can be read |
| Disclosure.WhatAGuestTakes | src/disclosure.rs:90-118 | A guest takes its disks whatever its power, and its vCPUs and MiB rounded up while it runs or is paused |
| Disclosure.WhenAGuestIsRefused | src/disclosure.rs:97-109 | A guest is refused exactly when its configuration or power is not read, or it runs and a figure is not; and which refusal it is |
| Disclosure.DisksAreSums | src/disclosure.rs:113-115 | Each storage is charged the sum of its own volumes |
| Disclosure.OneStorageMore | src/disclosure.rs:134 | Only contributed storages count, each once: none is nothing, and one more adds what is held on it |
| DisclosureSum.AnySplitIsTheSame | src/disclosure.rs:120-127 | Two listings' uses added are the use of one listing of all their guests |
| DisclosureSum.AnyOrderIsTheSame | src/disclosure.rs:90-118 | The use does not depend on the order guests are listed in |
| DisclosureSum.TheRestIsExact | src/disclosure.rs:144-148 | The sellable rest is min(reported, max(0, host - owner)) if and only if reported is at most host or the owner takes the whole slice |
| DisclosureSum.OwnerAndSoldFit | src/disclosure.rs:144-148 | The owner and whatever is sold of the rest fit the host whenever the owner alone does; else nothing may be sold |
| DisclosureSum.TheCastLosesNothing | src/disclosure.rs:136-137 | The cast to 32 bits loses nothing of a slice counted in 32 bits |
| DisclosureSum.AFurtherGuestNeverRaisesTheRest | src/disclosure.rs:90-148 | A further guest never raises what may be sold of any resource, nor lowers it by more than the guest uses |
| DisclosureSum.RoundedByLessThanOneEach | src/disclosure.rs:104-112 | The rounded sums overstate by less than one unit per running guest, and are zero when none runs |
| DisclosureSum.ASurveyIsExact | src/disclosure.rs:90-148 | For guests in any order and any split, with reported at most host, all three rests are exact and the disk sums add up |
| PyText.LinesReadBack | packaging/units.py:215 | Lines written with a newline each are split back into those lines |
| UnitText.ServiceLines | packaging/units.py:130-142 | The settings of the [Service] sections, in order |
| UnitText.WhichLinesAreSettings | packaging/units.py:130-142 | A line is a setting exactly when it is no comment, no header and not empty, and the last header before it is [Service] |
| UnitText.AppendToService | packaging/units.py:200-215 | The text with the line after the first [Service] section's last, or nothing when there is none |
| UnitText.AppendedIsReadBack | packaging/units.py:130-215 | A setting appended is read back as the first section's last, and as the last of all when there is one section |
| UnitCheck.Grouped | packaging/units.py:147-149 | The required lines by key |
| UnitCheck.CheckRequired | packaging/units.py:150-161 | Every required key's lines, exactly the one wanted, or stopped at a key required twice |
| UnitCheck.CheckLines | packaging/units.py:163-170 | Every other line's key free and not forbidden |
| UnitCheck.CheckFree | packaging/units.py:162-174 | No free key twice |
| UnitCheck.CheckUnit | packaging/units.py:145-175 | Exactly the complaints there are to make, unless the table requires a key twice |
| UnitCheck.KeyAndValue | packaging/units.py:126-127 | A line's key is what stands before its first equals sign, stripped, or the whole line |
| UnitCheck.WhatIsSaidOfARequiredLine | packaging/units.py:150-161 | Lacking, repeated or another, exactly by how many lines have the key and what the one is |
| UnitCheck.WhatIsSaidOfALine | packaging/units.py:163-170 | Forbidden exactly when the key goes on from a prefix of the table's, else unknown exactly when it is not free |
| UnitCheck.NoComplaintIsHolding | packaging/units.py:145-175 | Nothing is complained of if and only if each required key occurs once with its line and every other key is free, at most once and not forbidden |
| UnitApplied.WhatIsAppliedIsTheTables | packaging/units.py:11-31 | Under last-wins, empty-resets and list-merge, what is applied of a passing unit, read line by line, is the table's value, and nothing for a key neither required nor free |
| UnitSyntax.JoinedIsTheLines | packaging/units.py:130-142 | The lines systemd reads, continued ones joined, are the checker's if and only if no line but a comment ends in a backslash |
| UnitSyntax.HowLinesAreJoined | packaging/units.py:130-142 | Comments passed over, a line with no backslash at its end as it is, a continued one with the next and none after |
| UnitSyntax.WhatSystemdAppliesIsTheTables | packaging/units.py:11-31 | Of a passing text without such a line, what systemd applies is the table's value, and nothing for a key neither required nor free |
| UnitSyntax.ABackslashSwallowsARequiredLine | packaging/units.py:130-142 | A free key's line that ends in a backslash passes the check and swallows the required line after it: a concrete text |
| UnitApplied.ASecondLineIsRefused | packaging/units.py:20-22 | Appending a second line of a required key to a passing text always fails the check |
| UnitApplied.AnyValueIsRefused | packaging/units.py:20-22 | Whatever the value, the empty reset included |
| DepInfo.DepPaths | packaging/version.py:44-54 | Every prerequisite of every rule, unescaped, in order |
| DepInfo.TheSamePathsComeBack | packaging/version.py:44-54 | Paths printed with spaces and backslashes escaped come back the same if and only if they have no white space but spaces and the last does not end in a backslash |
| DepInfo.WhereATargetEnds | packaging/version.py:49-51 | A line gives prerequisites exactly when something stands before its first uncovered colon, and they are all that follows it |
| DepInfo.WhatThePathsAre | packaging/version.py:52 | A path runs as far as the first white space no backslash covers, and is one token of its line |
| DepInfo.UnescapedUnitByUnit | packaging/version.py:53 | Unescaped, a path is each of its units' last character |
| DepInfo.ReadOfBoth | packaging/version.py:44-54 | A text gives what its parts give, in order, cut after any newline with no backslash before it |
| DepInfo.EveryRulesPathsComeBack | packaging/version.py:44-54 | Any number of printed rules give all their paths back, in order |
| PackageHash.InputsOf | packaging/version.py:68-74 | Exactly the paths under the build root that are not generated, relative to it |
| PackageHash.Inputs | packaging/version.py:57-88 | The sorted inputs are exactly those listed under the build root and not generated, the fixed ones, and the manifests, settings and packaging files found; refused exactly when a dep-info file is not there or lists nothing, or an input is missing |
| PackageHash.WhatTheInputsAre | packaging/version.py:62-84 | Which paths are inputs, said in full: named under the build root and not under target, one of the five, or a file there that is a toolchain setting, a crate's manifest or under packaging/deb |
| PackageHash.Version | packaging/version.py:98-102 | What is hashed is the sorted listing |
| PackageHash.TheListingIsTheInputs | packaging/version.py:98-102 | The listing determines the map from path to digest, for one-line paths and digests of one length |
| PackageHash.ANewlineListsTwoFiles | packaging/version.py:98-102 | A path with a newline in it can be listed as two files: concrete inputs |

## Left out

- LeaseRun.OffBeforeCoreStartsAnother: one machine at a time; a look's stop takes effect at the look.
- LeaseRun.OffWhenEveryStartIsInTime: a start is the moment the machine begins to run; one whose agent died or stopped waiting for it before then is not modelled.
- LeaseRun.OffBeforeCoreStartsAnother: the host timer is a look while the agent is down; its own code and the lock between the two are not part of this model.
- LeaseExact.WhenAPassStartIsTooLate: how long a pass's start comes after the re-read that cleared it is not bounded.
- RunLease.Given: a duration or an instant that overflows its type is not modelled; the source would panic there.
- LeaseFile.WrittenAndResumed: the wall clock is not before 1970 at the resumption.
- Outage.OnlyWhatTheViewAndTheLeasesAllow: one start's two clocks advance together; the wall clock is not set back during the outage.
- CloneSafety.AtMostOneClone: one agent; whole ids as tags and stamps, so the short twelve-digit keys shared by two ids are not modelled, and `pending::remove` never fails.
- CloneSafety.ARecordGoesOnlyWhenSettled: the configuration and the disk's resize are one step, applied whole or not at all.
- Recovery.Agent.RecoverPending: nobody else acts during the pass; what may happen between its calls is in `CloneProtocol`.
- Recovery.OthersAreLeft: the claims of workers and scrubs and their pool are the same rule with another name, modelled once.
- Reboot.AtMostOncePerToken: one agent per machine; two ids never share a record's file name.
- Handover.EveryStartIsBeforeFinishReturns: a boot task dropped without `finish` is not modelled.
- RestoreHead.OnlyCoreEndsIt: a head file unreadable at start, which the source loads as a restore, and a head of another provider, which it drops.
- Reconcile.Agent.Instance: a delete's tombstone and its later proof are one answer (`Doomed`); placement, capacity, the image offered and an earlier teardown are answers of `Item`.
- Reconcile.Agent.Converge: a running machine's shutdown, reboot and cloud-init refresh are steps that go through or not, not acts of the log.
- Reconcile.Agent.Reconcile: which protocol versions this build speaks is in a crate of its own; an answer is in one of them or not.
- Licence.EveryActIsLicensed: what the journal's recovery destroys before the loops is not in the log; its rules are `Recovery`'s and `CloneSafety`'s.
- Download.Store.DownloadArtefact: the sidecar's digest has no white space about it, and a sidecar not written, or half written, is a step of the runs (`DiesStamping`); a flush that fails is a cut.
- Disclosure.OwnerUse.Observe: figures are reals, so floating-point rounding, `NaN` and sums past 64 bits are not modelled; a size is read by a parameter.
- UnitSyntax.JoinedIsTheLines: white space and line breaks are the checker's, not systemd's.
- PackageHash.Inputs: symbolic links and directories named as files are not modelled; the digests are given.
- HTTP, TLS, redirects, websockets and the tunnel: answered or not is all that is kept.
- Cloud-init, first boot on Windows, recipes, images, networks, the opening, snippets and the survey: generators and sweeps of their own, not part of this model.
- The refusal tables of the handshake and the heartbeat, configuration loading and diagnostics: one-branch case splits.
