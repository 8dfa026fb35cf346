/**
 The run lease's durable file: what a restarted agent reads back from what its
 predecessor wrote (`src/lease.rs`, `crates/onv-agent-lib/src/run_lease.rs`).
 JSON is abstracted to what it parses to; the file is replaced by a rename.
 */
module LeaseFile {
  import opened Wrappers
  import opened RunLease
  import opened Order

  datatype Text = Blank | NotJson | Json(leases: seq<Written>)

  datatype File = NoFile | NotReadable | Holds(text: Text)

  /** Why nothing was resumed. */
  datatype Unread = Missing | Unreadable | Refused

  /** Unicode `White_Space`, which Rust's `trim` removes. */
  predicate IsWhite(c: char) {
    || '\t' <= c <= '\r' || c == ' ' || c == '\U{85}' || c == '\U{A0}' || c == '\U{1680}'
    || '\U{2000}' <= c <= '\U{200A}' || c == '\U{2028}' || c == '\U{2029}' || c == '\U{202F}'
    || c == '\U{205F}' || c == '\U{3000}'
  }

  predicate IsBlank(id: string) {
    forall i :: 0 <= i < |id| ==> IsWhite(id[i])
  }

  /** Empty is no lease; otherwise every id names a machine, or it is refused whole. */
  function ReadBody(text: Text): Result<seq<Written>, Unread> {
    match text
    case Blank => Ok([])
    case NotJson => Err(Refused)
    case Json(body) => if exists i :: 0 <= i < |body| && IsBlank(body[i].id) then Err(Refused) else Ok(body)
  }

  function Read(file: File): Result<seq<Written>, Unread> {
    match file
    case NoFile => Err(Missing)
    case NotReadable => Err(Unreadable)
    case Holds(text) => ReadBody(text)
  }

  /** Missing, not readable, not JSON, or naming a machine by white space alone. */
  ghost predicate IsUnread(file: File) {
    || file == NoFile || file == NotReadable || file == Holds(NotJson)
    || (file.Holds? && file.text.Json? && exists w :: w in file.text.leases && IsBlank(w.id))
  }

  /** **When a file is not read**: exactly then, and why; any other is read whole, an
      empty one as no lease. */
  lemma WhenAFileIsUnread(file: File)
    ensures Read(file).Err? <==> IsUnread(file)
    ensures Read(file).Err? ==> Read(file).error == if file == NoFile then Missing else if file == NotReadable then Unreadable else Refused
    ensures Read(file).Ok? ==> file == Holds(Json(Read(file).value)) || (file == Holds(Blank) && Read(file).value == [])
  {
    if file.Holds? && file.text.Json? {
      var body := file.text.leases;
      if w :| w in body && IsBlank(w.id) {
        var i :| 0 <= i < |body| && body[i] == w;
        assert IsBlank(body[i].id);
      }
    }
  }

  const WHITE := ['\t', '\n', '\U{0B}', '\U{0C}', '\r', ' ', '\U{85}', '\U{A0}', '\U{1680}',
                  '\U{2000}', '\U{2001}', '\U{2002}', '\U{2003}', '\U{2004}', '\U{2005}', '\U{2006}', '\U{2007}',
                  '\U{2008}', '\U{2009}', '\U{200A}', '\U{2028}', '\U{2029}', '\U{202F}', '\U{205F}', '\U{3000}']

  /** The twenty-five characters of that property. */
  lemma WhiteSpaceIsTheTable(c: char)
    ensures IsWhite(c) <==> c in WHITE
  {
    assert WHITE[0] == '\t' && |WHITE| == 25;
  }

  /** A deadline of the file on this process's clock: one already past is past now. */
  function Mapped(until: nat, now: int, wall: int): int {
    now + if until * SECOND > wall then until * SECOND - wall else 0
  }

  /** The book once `body` is taken up, entry by entry, the later deadline kept. */
  function ResumedInto(ls: Leases, body: seq<Written>, now: int, wall: int): Leases {
    if body == [] then ls
    else
      var before := ResumedInto(ls, body[..|body| - 1], now, wall);
      var w := body[|body| - 1];
      var deadline := Mapped(w.until, now, wall);
      if w.id in before && before[w.id].deadline >= deadline then before
      else before[w.id := Lease(deadline, w.until * SECOND, false)]
  }

  /** How many entries of it are taken up: each whose deadline is later than any
      held when its turn comes. */
  function TakenUp(ls: Leases, body: seq<Written>, now: int, wall: int): (n: nat)
    ensures n <= |body|
  {
    if body == [] then 0
    else
      var before := ResumedInto(ls, body[..|body| - 1], now, wall);
      var w := body[|body| - 1];
      TakenUp(ls, body[..|body| - 1], now, wall)
      + if w.id in before && before[w.id].deadline >= Mapped(w.until, now, wall) then 0 else 1
  }

  /** One entry of the file, on this process's clock. */
  function FromFile(w: Written, now: int, wall: int): Lease {
    Lease(Mapped(w.until, now, wall), w.until * SECOND, false)
  }

  /** `l` is what the book or an entry of the file holds `id` to. */
  ghost predicate Offered(ls: Leases, body: seq<Written>, now: int, wall: int, id: string, l: Lease) {
    || (id in ls && ls[id] == l)
    || exists i :: 0 <= i < |body| && body[i].id == id && FromFile(body[i], now, wall) == l
  }

  ghost predicate Writes(body: seq<Written>, id: string) {
    exists i :: 0 <= i < |body| && body[i].id == id
  }

  /** **The later deadline, id by id**, however often the file names one: a
      resumed book holds exactly the ids of both, each to one of the leases
      offered, and to none that runs out before another. */
  lemma {:induction false} TheLaterIsKept(ls: Leases, body: seq<Written>, now: int, wall: int)
    ensures var after := ResumedInto(ls, body, now, wall);
            && (forall id :: id in after <==> id in ls || Writes(body, id))
            && (forall id :: id in after ==> Offered(ls, body, now, wall, id, after[id]))
            && (forall id, l :: Offered(ls, body, now, wall, id, l) ==> id in after && l.deadline <= after[id].deadline)
  {
    var after := ResumedInto(ls, body, now, wall);
    if body != [] {
      var init := body[..|body| - 1];
      var w := body[|body| - 1];
      TheLaterIsKept(ls, init, now, wall);
      forall id, l ensures Offered(ls, body, now, wall, id, l) <==>
                           Offered(ls, init, now, wall, id, l) || (id == w.id && l == FromFile(w, now, wall)) {
        OfferedOneMore(ls, body, now, wall, id, l);
      }
      forall id ensures Writes(body, id) <==> Writes(init, id) || id == w.id {
        WritesOneMore(body, id);
      }
    }
  }

  /** Entry `i` runs later than the book's lease of its id, and than every entry of
      it before. */
  ghost predicate RunsLater(ls: Leases, body: seq<Written>, now: int, wall: int, i: nat) {
    && i < |body|
    && (body[i].id in ls ==> ls[body[i].id].deadline < FromFile(body[i], now, wall).deadline)
    && forall j :: 0 <= j < i && body[j].id == body[i].id ==>
         FromFile(body[j], now, wall).deadline < FromFile(body[i], now, wall).deadline
  }

  /** The last entry is taken up exactly when it runs later than all it meets. */
  lemma TheLastIsTakenUp(ls: Leases, body: seq<Written>, now: int, wall: int)
    requires body != []
    ensures var before, w := ResumedInto(ls, body[..|body| - 1], now, wall), body[|body| - 1];
            RunsLater(ls, body, now, wall, |body| - 1) <==>
            !(w.id in before && before[w.id].deadline >= Mapped(w.until, now, wall))
  {
    var init, w := body[..|body| - 1], body[|body| - 1];
    var before := ResumedInto(ls, init, now, wall);
    TheLaterIsKept(ls, init, now, wall);
    if RunsLater(ls, body, now, wall, |body| - 1) && w.id in before {
      assert Offered(ls, init, now, wall, w.id, before[w.id]);
    }
    if w.id !in before || before[w.id].deadline < Mapped(w.until, now, wall) {
      assert w.id in ls ==> Offered(ls, init, now, wall, w.id, ls[w.id]);
      forall j | 0 <= j < |body| - 1 && body[j].id == w.id
        ensures FromFile(body[j], now, wall).deadline < FromFile(w, now, wall).deadline
      {
        assert init[j] == body[j];
        assert Offered(ls, init, now, wall, w.id, FromFile(body[j], now, wall));
      }
    }
  }

  lemma RunsLaterInBoth(ls: Leases, body: seq<Written>, now: int, wall: int, i: nat)
    requires i + 1 < |body|
    ensures RunsLater(ls, body, now, wall, i) <==> RunsLater(ls, body[..|body| - 1], now, wall, i)
  {
    var init := body[..|body| - 1];
    assert forall j :: 0 <= j <= i ==> init[j] == body[j];
  }

  lemma LaterOnesOneMore(ls: Leases, body: seq<Written>, now: int, wall: int)
    requires body != []
    ensures var n, init := |body| - 1, body[..|body| - 1];
            (set i: nat | i < |body| && RunsLater(ls, body, now, wall, i)) ==
              (set i: nat | i < n && RunsLater(ls, init, now, wall, i)) + if RunsLater(ls, body, now, wall, n) then {n} else {}
  {
    var init, n := body[..|body| - 1], |body| - 1;
    forall i: nat | i < n ensures RunsLater(ls, body, now, wall, i) <==> RunsLater(ls, init, now, wall, i) {
      RunsLaterInBoth(ls, body, now, wall, i);
    }
  }

  /** **How many are taken up**: one for each entry that runs later than all it
      meets. */
  lemma {:induction false} HowManyAreTakenUp(ls: Leases, body: seq<Written>, now: int, wall: int)
    ensures TakenUp(ls, body, now, wall) == |set i: nat | i < |body| && RunsLater(ls, body, now, wall, i)|
  {
    if body == [] {
      assert (set i: nat | i < |body| && RunsLater(ls, body, now, wall, i)) == {};
    } else {
      HowManyAreTakenUp(ls, body[..|body| - 1], now, wall);
      TheLastIsTakenUp(ls, body, now, wall);
      LaterOnesOneMore(ls, body, now, wall);
      assert |body[..|body| - 1]| == |body| - 1;
    }
  }

  /** **A lease that no entry outruns is left as it is**, its mark and all. */
  lemma {:induction false} WhatIsNotOutrunStays(ls: Leases, body: seq<Written>, now: int, wall: int, id: string)
    requires forall i :: 0 <= i < |body| && body[i].id == id ==> !RunsLater(ls, body, now, wall, i)
    ensures Lookup(ResumedInto(ls, body, now, wall), id) == Lookup(ls, id)
  {
    if body != [] {
      var init := body[..|body| - 1];
      forall i | 0 <= i < |init| && init[i].id == id ensures !RunsLater(ls, init, now, wall, i) {
        RunsLaterInBoth(ls, body, now, wall, i);
      }
      WhatIsNotOutrunStays(ls, init, now, wall, id);
      TheLastIsTakenUp(ls, body, now, wall);
    }
  }

  /** For one machine, into an empty book. */
  lemma ResumedFor(body: seq<Written>, now: int, wall: int, id: string)
    ensures id in ResumedInto(map[], body, now, wall) <==> Writes(body, id)
    ensures id in ResumedInto(map[], body, now, wall) ==>
              exists i :: 0 <= i < |body| && body[i].id == id && FromFile(body[i], now, wall) == ResumedInto(map[], body, now, wall)[id]
  {
    TheLaterIsKept(map[], body, now, wall);
    var after := ResumedInto(map[], body, now, wall);
    if id in after {
      assert Offered(map[], body, now, wall, id, after[id]);
    }
  }

  lemma OfferedOneMore(ls: Leases, body: seq<Written>, now: int, wall: int, id: string, l: Lease)
    requires body != []
    ensures Offered(ls, body, now, wall, id, l) <==>
            Offered(ls, body[..|body| - 1], now, wall, id, l)
            || (id == body[|body| - 1].id && l == FromFile(body[|body| - 1], now, wall))
  {
    var init := body[..|body| - 1];
    if i :| 0 <= i < |init| && init[i].id == id && FromFile(init[i], now, wall) == l {
      assert body[i] == init[i];
    }
    if i :| 0 <= i < |body| && body[i].id == id && FromFile(body[i], now, wall) == l {
      if i < |init| { assert init[i] == body[i]; }
    }
  }

  lemma WritesOneMore(body: seq<Written>, id: string)
    requires body != []
    ensures Writes(body, id) <==> Writes(body[..|body| - 1], id) || id == body[|body| - 1].id
  {
    var init := body[..|body| - 1];
    if i :| 0 <= i < |init| && init[i].id == id {
      assert body[i] == init[i];
    }
    if i :| 0 <= i < |body| && body[i].id == id {
      if i < |init| { assert init[i] == body[i]; }
    }
  }

  ghost predicate HoldsEach(ls: Leases, body: seq<Written>, now: int, wall: int) {
    && (forall id :: id in ls ==> id in Ids(body))
    && forall i :: 0 <= i < |body| ==> body[i].id in ls && ls[body[i].id] == FromFile(body[i], now, wall)
  }

  /** A file no id is written twice in, resumed into an empty book. */
  lemma {:induction false} ResumedAfresh(body: seq<Written>, now: int, wall: int)
    requires Ascending(Ids(body))
    ensures HoldsEach(ResumedInto(map[], body, now, wall), body, now, wall)
  {
    if body != [] {
      var init := body[..|body| - 1];
      var w := body[|body| - 1];
      assert Ids(body) == Ids(init) + [w.id];
      assert Ascending(Ids(init)) by {
        assert forall i :: 0 <= i < |init| ==> Ids(init)[i] == Ids(body)[i];
      }
      ResumedAfresh(init, now, wall);
      LastIsNew(body);
    }
  }

  lemma LastIsNew(body: seq<Written>)
    requires body != [] && Ascending(Ids(body))
    ensures body[|body| - 1].id !in Ids(body[..|body| - 1])
  {
    var init := body[..|body| - 1];
    var w := body[|body| - 1];
    if w.id in Ids(init) {
      var i :| 0 <= i < |init| && Ids(init)[i] == w.id;
      assert Less(Ids(body)[i], Ids(body)[|body| - 1]);
      LessIsAsymmetric(w.id, w.id);
    }
  }

  /** What the lease task writes is what the next start reads, unless an id of
      it is blank: then the whole file is refused. */
  lemma ReadsBackUnlessBlank(ls: Leases)
    ensures Read(Holds(Json(FileBody(ls)))) ==
            if exists id :: id in ls && IsBlank(id) then Err(Refused) else Ok(FileBody(ls))
  {
    var body := FileBody(ls);
    if id :| id in ls && IsBlank(id) {
      assert id in Ids(body);
      var i :| 0 <= i < |body| && Ids(body)[i] == id;
      assert IsBlank(body[i].id);
    }
  }

  /** **Written and resumed**: the same machines, none of them stopped yet, each
      deadline as far ahead as the whole seconds of its wall clock say: never
      later, and less than a second sooner. One already past is past at once. */
  lemma WrittenAndResumed(ls: Leases, now: int, wall: int)
    requires wall >= 0
    ensures var after := ResumedInto(map[], FileBody(ls), now, wall);
            && after.Keys == ls.Keys
            && forall id :: id in ls ==>
                 && !after[id].stopped
                 && (ls[id].wall <= wall ==> after[id].deadline == now && !MayRestart(after, id, now))
                 && (ls[id].wall > wall ==> ls[id].wall - wall - SECOND < after[id].deadline - now <= ls[id].wall - wall)
  {
    var body := FileBody(ls);
    var after := ResumedInto(map[], body, now, wall);
    ResumedAfresh(body, now, wall);
    forall id | id in ls
      ensures id in after && after[id] == FromFile(Written(id, Unix(ls[id].wall)), now, wall)
    {
      assert id in Ids(body);
      var i :| 0 <= i < |body| && Ids(body)[i] == id;
      assert body[i] == Written(id, Unix(ls[id].wall));
    }
    forall id | id in after ensures id in ls {
      assert id in Sorted(ls.Keys);
    }
    assert after.Keys == ls.Keys;
  }

  /** One start that hears no view: the file read, a look made, the file written. */
  function Rewritten(body: seq<Written>, now: int, wall: int, look: int, answered: set<string>): seq<Written> {
    FileBody(Looked(ResumedInto(map[], body, now, wall), look, answered))
  }

  lemma IdsAreWritten(body: seq<Written>, id: string)
    ensures id in Ids(body) <==> Writes(body, id)
  {
    if id in Ids(body) {
      var i :| 0 <= i < |body| && Ids(body)[i] == id;
      assert body[i].id == id;
    }
    if i :| 0 <= i < |body| && body[i].id == id {
      assert Ids(body)[i] == id;
    }
  }

  lemma TheFileNamesTheBook(ls: Leases, id: string)
    ensures Writes(FileBody(ls), id) <==> id in ls
  {
    IdsAreWritten(FileBody(ls), id);
  }

  /** A book of a file's machines and wall deadlines is written as that file. */
  lemma BookIsTheFile(last: seq<Written>, book: Leases)
    requires Ascending(Ids(last))
    requires forall id :: id in book <==> Writes(last, id)
    requires forall i :: 0 <= i < |last| ==> last[i].id in book && Unix(book[last[i].id].wall) == last[i].until
    ensures FileBody(book) == last
  {
    var body := FileBody(book);
    forall id ensures id in Ids(body) <==> id in Ids(last) {
      IdsAreWritten(body, id);
      IdsAreWritten(last, id);
      TheFileNamesTheBook(book, id);
    }
    AscendingIsUnique(Ids(body), Ids(last));
    forall i | 0 <= i < |last| ensures body[i] == last[i] {
      assert body[i].id == Ids(body)[i] == Ids(last)[i] == last[i].id;
    }
  }

  lemma RewrittenIsTheSame(body: seq<Written>, now: int, wall: int, look: int, answered: set<string>)
    requires Ascending(Ids(body))
    ensures Rewritten(body, now, wall, look, answered) == body
  {
    ResumedAfresh(body, now, wall);
    var after := Looked(ResumedInto(map[], body, now, wall), look, answered);
    forall id ensures id in after <==> Writes(body, id) {
      IdsAreWritten(body, id);
    }
    BookIsTheFile(body, after);
  }

  datatype Start = Start(now: int, wall: int, look: int, answered: set<string>)

  predicate IsAStart(before: seq<Written>, s: Start, after: seq<Written>) {
    after == Rewritten(before, s.now, s.wall, s.look, s.answered)
  }

  lemma AStartKeepsTheFile(before: seq<Written>, s: Start, after: seq<Written>)
    requires Ascending(Ids(before)) && IsAStart(before, s, after)
    ensures after == before
  {
    RewrittenIsTheSame(before, s.now, s.wall, s.look, s.answered);
  }

  /** **Any number of restarts without a view keeps the file**, whatever each
      start's clocks read and whichever stops it was answered for. */
  lemma {:induction false} StartsKeepTheFile(files: seq<seq<Written>>, starts: seq<Start>, n: nat)
    requires |files| == |starts| + 1 && Ascending(Ids(files[0])) && n <= |starts|
    requires forall i :: 0 <= i < |starts| ==> IsAStart(files[i], starts[i], files[i + 1])
    ensures files[n] == files[0]
  {
    if n > 0 {
      StartsKeepTheFile(files, starts, n - 1);
      AStartKeepsTheFile(files[n - 1], starts[n - 1], files[n - 1 + 1]);
    }
  }
}
