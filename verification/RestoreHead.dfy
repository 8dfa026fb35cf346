/**
 A restore of Core's ledger, noticed from the agent's side
 (`crates/onv-core-link/src/restore.rs`): every view is read against a head kept
 through restarts, and in a restore the agent acts on nothing.
 */
module RestoreHead {
  import opened Wrappers

  /** The restore Core named, once it named one. */
  datatype Mode = Mode(core: Option<string>)

  /** `armed`: the Core last spoken to holds restores; `revision`: the highest
      view revision acted on. */
  datatype Head = Head(armed: bool, revision: nat, mode: Option<Mode>)

  predicate InRestore(h: Head) {
    h.armed && h.mode.Some?
  }

  /** Core named a restore before and names none now. */
  predicate Ends(h: Head, named: Option<string>) {
    named.None? && h.mode.Some? && h.mode.value.core.Some?
  }

  /** One view, read against the head: `same` is an answer without one, `again`
      one that wants an attempt torn down here. */
  function Observed(h: Head, same: bool, version: nat, again: bool, named: Option<string>): Head {
    if !h.armed then h
    else if Ends(h, named) then Head(true, if same then h.revision else version, None)
    else
      var read :=
        if h.mode.Some? || same then h
        else if (version != 0 && version < h.revision) || again then h.(mode := Some(Mode(None)))
        else if version > h.revision then h.(revision := version)
        else h;
      if named.Some? then read.(mode := Some(Mode(named))) else read
  }

  /** **When a restore begins, and when it ends**: Core names one, or a view is below
      the head, or wants an attempt torn down here; and once begun, it ends only
      where Core named one and names none. Whatever Core names is then held. */
  lemma WhenARestoreHolds(h: Head, same: bool, version: nat, again: bool, named: Option<string>)
    ensures var after := Observed(h, same, version, again, named);
            && after.armed == h.armed && (!h.armed ==> after == h)
            && (h.armed && h.mode.None? ==>
                  (InRestore(after) <==> named.Some? || (!same && (0 < version < h.revision || again))))
            && (InRestore(h) ==> (InRestore(after) <==> named.Some? || h.mode.value.core.None?))
            && (h.armed && named.Some? ==> InRestore(after) && after.mode.value.core == named)
  {
  }

  /** **What the head then is**: the highest revision acted on, or, where a restore
      ended on this view, that view's; it moves in no restore. */
  lemma WhatTheHeadIs(h: Head, same: bool, version: nat, again: bool, named: Option<string>)
    requires h.armed
    ensures var after := Observed(h, same, version, again, named);
            if Ends(h, named) then after.revision == if same then h.revision else version
            else if h.mode.Some? || same || again then after.revision == h.revision
            else after.revision == if version > h.revision then version else h.revision
  {
  }

  // ---- Any run of views ----

  datatype Reading = Reading(same: bool, version: nat, again: bool, named: Option<string>)

  function Through(h: Head, rs: seq<Reading>): Head {
    if rs == [] then h
    else
      var r := rs[|rs| - 1];
      Observed(Through(h, rs[..|rs| - 1]), r.same, r.version, r.again, r.named)
  }

  /** A full view read, and this agent held by no restore after it. */
  ghost predicate ActsOn(h: Head, rs: seq<Reading>, k: nat) {
    k < |rs| && !rs[k].same && !InRestore(Through(h, rs[..k + 1]))
  }

  /** No restore is ended by any of the readings from `i` on. */
  ghost predicate NoneEnds(h: Head, rs: seq<Reading>, i: nat) {
    forall j :: i <= j < |rs| ==> !Ends(Through(h, rs[..j]), rs[j].named)
  }

  lemma OneMore(h: Head, rs: seq<Reading>, k: nat)
    requires k < |rs|
    ensures Through(h, rs[..k + 1]) == Observed(Through(h, rs[..k]), rs[k].same, rs[k].version, rs[k].again, rs[k].named)
    ensures Through(h, rs[..k + 1]).armed == Through(h, rs[..k]).armed
  {
    assert rs[..k + 1][..k] == rs[..k];
  }

  lemma {:induction false} StillArmed(h: Head, rs: seq<Reading>)
    ensures Through(h, rs).armed == h.armed
  {
    if rs != [] {
      StillArmed(h, rs[..|rs| - 1]);
    }
  }

  /** From a view acted on, and no restore ended since: none begun, or still in it,
      and the head not below that view. */
  lemma {:induction false} TheHeadHolds(h: Head, rs: seq<Reading>, i: nat, k: nat)
    requires h.armed && ActsOn(h, rs, i) && i < k <= |rs| && NoneEnds(h, rs, i + 1)
    ensures InRestore(Through(h, rs[..k])) || Through(h, rs[..k]).revision >= rs[i].version
    decreases k
  {
    StillArmed(h, rs[..i]);
    OneMore(h, rs, k - 1);
    StillArmed(h, rs[..k - 1]);
    if i < k - 1 {
      TheHeadHolds(h, rs, i, k - 1);
    }
  }

  /** **No view below one acted on is acted on**, while Core ends no restore in
      between; but for a view of revision zero, which says nothing of itself. */
  lemma NothingBelowTheHead(h: Head, rs: seq<Reading>, i: nat, k: nat)
    requires h.armed && ActsOn(h, rs, i) && ActsOn(h, rs, k) && i < k && NoneEnds(h, rs, i + 1)
    ensures rs[k].version == 0 || rs[i].version <= rs[k].version
  {
    TheHeadHolds(h, rs, i, k);
    OneMore(h, rs, k);
    StillArmed(h, rs[..k]);
  }

  /** **Only Core ends a restore this agent noticed**: by naming one and then
      naming none. */
  lemma {:induction false} OnlyCoreEndsIt(h: Head, rs: seq<Reading>)
    requires InRestore(h) && !InRestore(Through(h, rs))
    ensures exists k :: 0 <= k < |rs| && Ends(Through(h, rs[..k]), rs[k].named)
    ensures h.mode.value.core == None ==> exists j, k :: 0 <= j < k < |rs| && rs[j].named.Some? && rs[k].named == None
    decreases |rs|
  {
    var init := rs[..|rs| - 1];
    StillArmed(h, init);
    if InRestore(Through(h, init)) {
      assert Ends(Through(h, rs[..|rs| - 1]), rs[|rs| - 1].named);
      if h.mode.value.core == None {
        var j := WasNamed(h, init);
        assert rs[j].named.Some? && rs[|rs| - 1].named == None;
      }
    } else {
      OnlyCoreEndsIt(h, init);
      var k :| 0 <= k < |init| && Ends(Through(h, init[..k]), init[k].named);
      assert rs[..k] == init[..k] && rs[k] == init[k];
      if h.mode.value.core == None {
        var a, b :| 0 <= a < b < |init| && init[a].named.Some? && init[b].named == None;
        assert rs[a] == init[a] && rs[b] == init[b];
      }
    }
  }

  /** **While Core names a restore it holds**: from a reading that names one, through
      every reading that does. */
  lemma {:induction false} ANamedRestoreHolds(h: Head, rs: seq<Reading>, i: nat)
    requires h.armed && i < |rs| && forall k :: i <= k < |rs| ==> rs[k].named.Some?
    ensures InRestore(Through(h, rs)) && Through(h, rs).mode.value.core == rs[|rs| - 1].named
    decreases |rs|
  {
    StillArmed(h, rs[..|rs| - 1]);
    var last := rs[|rs| - 1];
    WhenARestoreHolds(Through(h, rs[..|rs| - 1]), last.same, last.version, last.again, last.named);
  }

  /** Whatever Core's name is held, a reading said it, or the head came with it. */
  lemma {:induction false} WasNamed(h: Head, rs: seq<Reading>) returns (j: nat)
    requires h.armed && InRestore(Through(h, rs)) && Through(h, rs).mode.value.core.Some?
    requires h.mode.Some? ==> h.mode.value.core == None
    ensures j < |rs| && rs[j].named.Some?
    decreases |rs|
  {
    var init := rs[..|rs| - 1];
    StillArmed(h, init);
    if rs[|rs| - 1].named.Some? {
      j := |rs| - 1;
    } else {
      j := WasNamed(h, init);
    }
  }
}
