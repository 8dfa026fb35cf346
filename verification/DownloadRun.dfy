/**
 Any run of download attempts (`src/agent.rs:433-609`): for any artefacts, cut
 or died anywhere, answered 206 or 200. Each byte of the partial is followed
 with the digest it was fetched for.
 */
module DownloadRun {
  import opened Wrappers
  import opened Download

  /** `from[i]` is the digest byte `i` of the partial was fetched for. */
  datatype World = World(files: Files, from: seq<string>)

  datatype Step =
    | Attempt(a: Artefact, r: Answer, d: Disk)
    | DiesStamping(a: Artefact, clears: bool, left: Option<string>)  // the sidecar half written, or not at all

  function FetchedFor(digest: string, n: nat): (r: seq<string>)
    ensures |r| == n && forall i :: 0 <= i < n ==> r[i] == digest
  {
    seq(n, _ => digest)
  }

  const GOOD_DISK := Disk(true, true, true, true, true)

  /** The attempt gets as far as writing: what it does not append to goes. */
  predicate Truncates(r: Answer, d: Disk) {
    r.Answer? && Succeeded(r.status) && d.opens
  }

  /** The digests of the bytes the attempt leaves, old and new. */
  function FromAfter(w: World, a: Artefact, r: Answer, d: Disk, after: Files): seq<string> {
    if after.part.None? then []
    else if !Truncates(r, d) then w.from
    else
      var kept := if Appends(w.files, a, r) then w.from else [];
      kept + FetchedFor(a.sha256, if |after.part.value| >= |kept| then |after.part.value| - |kept| else 0)
  }

  function Do(hash: Hash, w: World, step: Step): World {
    match step
    case Attempt(a, r, d) =>
      var after := Attempted(hash, w.files, a, r, d).0;
      World(after, FromAfter(w, a, r, d, after))
    case DiesStamping(a, clears, left) =>
      if Have(w.files, a) > 0 then w
      else if clears then World(w.files.(part := None, stamp := left), [])
      else World(w.files.(stamp := left), w.from)
  }

  /** What may not be resumed is removed when it is meant to be. */
  predicate Clears(step: Step) {
    match step
    case Attempt(_, _, d) => d.clears
    case DiesStamping(_, clears, _) => clears
  }

  function End(hash: Hash, w: World, steps: seq<Step>): World
    decreases |steps|
  {
    if steps == [] then w else Do(hash, End(hash, w, steps[..|steps| - 1]), steps[|steps| - 1])
  }

  const NOTHING := World(Files(None, None, None), [])

  // ---- What an attempt comes to ----

  /** The body ended, and all of it is the artefact. */
  ghost predicate CameWhole(hash: Hash, f: Files, a: Artefact, r: Answer, d: Disk) {
    && Truncates(r, d) && r.ending.Whole?
    && hash(Base(f, a, r) + Joined(r.chunks)) == a.sha256 && |Base(f, a, r) + Joined(r.chunks)| == a.bytes
  }

  /** **When an attempt succeeds**, whatever the server: exactly when a body ended
      that is, with what it was appended to, of the digest and length wanted, and
      the rename worked; the image then is that, and else what it was. */
  lemma WhenAnAttemptSucceeds(hash: Hash, f: Files, a: Artefact, r: Answer, d: Disk)
    ensures var (after, result) := Attempted(hash, f, a, r, d);
            && (result.Ok? <==> CameWhole(hash, f, a, r, d) && d.renames)
            && (result.Ok? ==>
                  && after.part == None && after.dest == Some(Base(f, a, r) + Joined(r.chunks))
                  && hash(after.dest.value) == a.sha256 && |after.dest.value| == a.bytes)
            && (result.Err? ==> after.dest == f.dest)
  {
  }

  /** **Why one fails**, each if and only if. */
  lemma WhyAnAttemptFails(hash: Hash, f: Files, a: Artefact, r: Answer, d: Disk)
    ensures var result := Attempted(hash, f, a, r, d).1;
            && (result == Err(NotAnswered) <==> r == NoAnswer)
            && (result == Err(NotRenamed) <==> CameWhole(hash, f, a, r, d) && !d.renames)
            && (r.Answer? ==>
                  && ((result.Err? && result.error.RefusedWith?) <==> !(200 <= r.status < 300))
                  && (result == Err(NotOpened) <==> 200 <= r.status < 300 && !d.opens)
                  && ((result.Err? && result.error.Died?) <==> Truncates(r, d) && r.ending.Cut?)
                  && ((result.Err? && result.error.WrongBytes?) <==>
                        Truncates(r, d) && r.ending.Whole? && !CameWhole(hash, f, a, r, d)))
  {
  }

  /** **What a failed attempt leaves**: an image already there stays; a cut leaves
      all that came, under its digest; and a wrong transfer what the disk would
      not let go. */
  lemma WhatAFailedAttemptLeaves(hash: Hash, f: Files, a: Artefact, r: Answer, d: Disk)
    ensures var (after, result) := Attempted(hash, f, a, r, d);
            && (result.Err? ==> after.dest == f.dest)
            && (result.Err? && result.error.Died? ==>
                  && after.stamp == Some(a.sha256) && result.error.after == |Base(f, a, r) + Joined(r.chunks)|
                  && after.part == Some(Base(f, a, r) + Joined(r.chunks) + r.ending.torn))
            && (result.Err? && result.error.WrongBytes? ==>
                  && result.error.written == |Base(f, a, r) + Joined(r.chunks)|
                  && after.part == (if d.dropsPart then None else Some(Base(f, a, r) + Joined(r.chunks)))
                  && after.stamp == if d.dropsStamp then None else Some(a.sha256))
            && (result == Err(NotRenamed) ==>
                  after.part == Some(Base(f, a, r) + Joined(r.chunks)) && after.stamp == Some(a.sha256))
  {
  }

  /** **A wrong transfer is nobody's to resume**, where either of its files goes; and
      one that failed before any byte was written leaves the partial to resume. */
  lemma AWrongTransferIsNotResumed(hash: Hash, f: Files, a: Artefact, r: Answer, d: Disk, next: Artefact)
    ensures var (after, result) := Attempted(hash, f, a, r, d);
            && (result.Err? && result.error.WrongBytes? && (d.dropsPart || d.dropsStamp) ==> Have(after, next) == 0)
            && (!Truncates(r, d) && Have(f, a) > 0 ==> after == f)
  {
  }

  lemma {:induction false} JoinedOfBoth(a: seq<Bytes>, b: seq<Bytes>)
    ensures Joined(a + b) == Joined(a) + Joined(b)
    decreases |b|
  {
    if b == [] {
      assert a + b == a;
    } else {
      var init := b[..|b| - 1];
      JoinedOfBoth(a, init);
      assert (a + b)[..|a + b| - 1] == a + init;
    }
  }

  /** **The chunks are joined in the order they came.** */
  lemma ChunksInOrder(first: Bytes, rest: seq<Bytes>)
    ensures Joined([]) == [] && Joined([first]) == first && Joined([first] + rest) == first + Joined(rest)
  {
    assert [first][..0] == [];
    JoinedOfBoth([first], rest);
  }

  // ---- Appended to only its own ----

  ghost predicate OneDigest(w: World) {
    && |w.from| == (if w.files.part.Some? then |w.files.part.value| else 0)
    && (w.files.part.Some? && w.files.stamp.Some? ==> forall i :: 0 <= i < |w.from| ==> w.from[i] == w.files.stamp.value)
  }

  /** The step does not need a removal that failed: what may not be resumed was
      removed, or is its own all the same, or was truncated, or lost its sidecar. */
  ghost predicate IsHarmless(w: World, step: Step) {
    match step
    case Attempt(a, r, d) => d.clears || AllFrom(w, a.sha256) || Truncates(r, d)
    case DiesStamping(a, clears, left) => Have(w.files, a) > 0 || clears || left == None || AllFrom(w, left.value)
  }

  ghost predicate AllFrom(w: World, digest: string) {
    forall i :: 0 <= i < |w.from| ==> w.from[i] == digest
  }

  /** **When a removal matters**: a step leaves bytes under a sidecar they were not
      fetched for exactly when a partial with some was neither removed, nor its
      own, nor truncated by an answer. */
  lemma WhenARemovalMatters(hash: Hash, w: World, step: Step)
    requires OneDigest(w)
    ensures OneDigest(Do(hash, w, step)) <==> IsHarmless(w, step)
  {
    match step
    case Attempt(a, r, d) => AttemptIsHarmless(hash, w, a, r, d);
    case DiesStamping(a, clears, left) => DeathIsHarmless(hash, w, a, clears, left);
  }

  lemma AttemptIsHarmless(hash: Hash, w: World, a: Artefact, r: Answer, d: Disk)
    requires OneDigest(w)
    ensures OneDigest(Do(hash, w, Attempt(a, r, d))) <==> d.clears || AllFrom(w, a.sha256) || Truncates(r, d)
  {
  }

  lemma DeathIsHarmless(hash: Hash, w: World, a: Artefact, clears: bool, left: Option<string>)
    requires OneDigest(w)
    ensures OneDigest(Do(hash, w, DiesStamping(a, clears, left))) <==>
            Have(w.files, a) > 0 || clears || left == None || AllFrom(w, left.value)
  {
  }

  ghost predicate HarmlessRun(hash: Hash, steps: seq<Step>)
    decreases |steps|
  {
    steps == [] ||
    var n := |steps| - 1;
    HarmlessRun(hash, steps[..n]) && IsHarmless(End(hash, NOTHING, steps[..n]), steps[n])
  }

  /** **A partial is resumed only if every byte of it was fetched for the digest
      now wanted**, over any run from an empty directory in which no removal that
      matters fails. */
  lemma {:induction false} AppendedOnlyToItsOwn(hash: Hash, steps: seq<Step>, a: Artefact)
    requires HarmlessRun(hash, steps)
    ensures OneDigest(End(hash, NOTHING, steps))
    ensures var w := End(hash, NOTHING, steps);
            Have(w.files, a) > 0 ==> |w.from| == Have(w.files, a) && AllFrom(w, a.sha256)
    decreases |steps|
  {
    if steps != [] {
      AppendedOnlyToItsOwn(hash, steps[..|steps| - 1], a);
      WhenARemovalMatters(hash, End(hash, NOTHING, steps[..|steps| - 1]), steps[|steps| - 1]);
    }
  }

  /** A run in which every removal succeeds is one. */
  lemma {:induction false} ClearingIsHarmless(hash: Hash, steps: seq<Step>)
    requires forall i :: 0 <= i < |steps| ==> Clears(steps[i])
    ensures HarmlessRun(hash, steps)
    decreases |steps|
  {
    if steps != [] {
      ClearingIsHarmless(hash, steps[..|steps| - 1]);
    }
  }

  /** **A partial that could not be removed** is taken for the digest its sidecar
      was rewritten to, when the request after it is not answered. */
  lemma APartialNotRemovedIsTakenForAnother(hash: Hash, a: Artefact, b: Artefact, byte: Byte)
    requires a.sha256 != b.sha256 && a.bytes > 0 && b.bytes > 1
    ensures var steps := [Attempt(a, Answer(200, [[byte]], Cut([])), GOOD_DISK),
                          Attempt(b, NoAnswer, GOOD_DISK.(clears := false))];
            var w := End(hash, NOTHING, steps);
            Have(w.files, b) == 1 && w.from == [a.sha256]
  {
    var first := Attempt(a, Answer(200, [[byte]], Cut([])), GOOD_DISK);
    var second := Attempt(b, NoAnswer, GOOD_DISK.(clears := false));
    assert [[byte]][..0] == [];
    assert Joined([[byte]]) == [byte];
    assert [] + [byte] + [] == [byte];
    assert [] + FetchedFor(a.sha256, 1) == [a.sha256];
    assert [first, second][..1] == [first];
    assert [first][..0] == [];
    assert End(hash, NOTHING, [first]) == World(Files(Some([byte]), Some(a.sha256), None), [a.sha256]);
  }

  // ---- Only what was published ----

  ghost predicate Published(hash: Hash, steps: seq<Step>, content: Bytes) {
    exists i :: 0 <= i < |steps| && steps[i].Attempt? && hash(content) == steps[i].a.sha256 && |content| == steps[i].a.bytes
  }

  /** **The image is only ever content of a published digest and length**, one
      an attempt of the run was for, whatever the servers sent. */
  lemma {:induction false} OnlyWhatWasPublished(hash: Hash, w: World, steps: seq<Step>)
    ensures var dest := End(hash, w, steps).files.dest;
            dest == w.files.dest || (dest.Some? && Published(hash, steps, dest.value))
    decreases |steps|
  {
    if steps != [] {
      var n := |steps| - 1;
      OnlyWhatWasPublished(hash, w, steps[..n]);
      var before := End(hash, w, steps[..n]).files.dest;
      var dest := End(hash, w, steps).files.dest;
      if before.Some? && Published(hash, steps[..n], before.value) {
        var i :| 0 <= i < n && steps[..n][i].Attempt?
                 && hash(before.value) == steps[..n][i].a.sha256 && |before.value| == steps[..n][i].a.bytes;
        assert steps[i] == steps[..n][i];
      }
      if dest != before {
        assert steps[n].Attempt? && hash(dest.value) == steps[n].a.sha256;
      }
    }
  }

  // ---- An honest server ----

  /** What was published under each digest. */
  type Catalogue = string -> Bytes

  ghost predicate Listed(hash: Hash, c: Catalogue, a: Artefact) {
    a.bytes == |c(a.sha256)| && hash(c(a.sha256)) == a.sha256
  }

  function Received(r: Answer): Bytes
    requires r.Answer?
  {
    Joined(r.chunks) + if r.ending.Cut? then r.ending.torn else []
  }

  /** What was asked for, from where it was asked: all of it, or cut short. */
  ghost predicate Honest(hash: Hash, c: Catalogue, w: World, step: Step) {
    step.Attempt? ==>
      && Listed(hash, c, step.a)
      && (step.r.Answer? && Succeeded(step.r.status) ==>
            var have := Have(w.files, step.a);
            && (step.r.status == PARTIAL_CONTENT ==> have > 0)
            && var rest := c(step.a.sha256)[if step.r.status == PARTIAL_CONTENT then have else 0..];
            && Received(step.r) <= rest
            && (step.r.ending.Whole? ==> Received(step.r) == rest))
  }

  ghost predicate HonestRun(hash: Hash, c: Catalogue, w: World, steps: seq<Step>)
    decreases |steps|
  {
    steps == [] ||
    var n := |steps| - 1;
    HonestRun(hash, c, w, steps[..n]) && Honest(hash, c, End(hash, w, steps[..n]), steps[n]) && Clears(steps[n])
  }

  ghost predicate IsPrefix(c: Catalogue, w: World) {
    w.files.part.Some? && w.files.stamp.Some? ==> w.files.part.value <= c(w.files.stamp.value)
  }

  lemma PrefixGrows(whole: Bytes, have: nat, base: Bytes, more: Bytes)
    requires have <= |whole| && base == whole[..have] && more <= whole[have..]
    ensures base + more <= whole
    ensures more == whole[have..] ==> base + more == whole
  {
    assert more == whole[have..][..|more|] == whole[have..have + |more|];
  }

  /** What an honest body leaves: a prefix of the artefact, the whole of it when
      the body ends. */
  lemma ReceivedIsAPrefix(hash: Hash, c: Catalogue, w: World, a: Artefact, r: Answer, d: Disk)
    requires IsPrefix(c, w) && Honest(hash, c, w, Attempt(a, r, d)) && r.Answer? && Succeeded(r.status)
    ensures Base(w.files, a, r) + Received(r) <= c(a.sha256)
    ensures r.ending.Whole? ==> Base(w.files, a, r) + Joined(r.chunks) == c(a.sha256)
    ensures r.ending.Cut? ==> Base(w.files, a, r) + Joined(r.chunks) + r.ending.torn == Base(w.files, a, r) + Received(r)
  {
    var base := Base(w.files, a, r);
    PrefixGrows(c(a.sha256), |base|, base, Received(r));
    if r.ending.Whole? {
      assert Received(r) == Joined(r.chunks);
    } else {
      assert base + Joined(r.chunks) + r.ending.torn == base + Received(r);
    }
  }

  lemma AttemptKeepsPrefix(hash: Hash, c: Catalogue, w: World, a: Artefact, r: Answer, d: Disk)
    requires IsPrefix(c, w) && d.clears && Honest(hash, c, w, Attempt(a, r, d))
    ensures IsPrefix(c, Do(hash, w, Attempt(a, r, d)))
    ensures Truncates(r, d) && r.ending.Whole? ==>
              Attempted(hash, w.files, a, r, d) ==
                if d.renames then (Files(None, if d.dropsStamp then None else Some(a.sha256), Some(c(a.sha256))), Ok(()))
                else (Files(Some(c(a.sha256)), Some(a.sha256), w.files.dest), Err(NotRenamed))
  {
    if r.Answer? && Succeeded(r.status) {
      ReceivedIsAPrefix(hash, c, w, a, r, d);
    }
  }

  /** **Against an honest server** the partial is always a prefix of the artefact
      its sidecar names, after any mix of cuts, deaths, 206 and 200. */
  lemma {:induction false} ThePartialIsAPrefix(hash: Hash, c: Catalogue, steps: seq<Step>)
    requires HonestRun(hash, c, NOTHING, steps)
    ensures IsPrefix(c, End(hash, NOTHING, steps))
    decreases |steps|
  {
    if steps != [] {
      var n := |steps| - 1;
      ThePartialIsAPrefix(hash, c, steps[..n]);
      if steps[n].Attempt? {
        AttemptKeepsPrefix(hash, c, End(hash, NOTHING, steps[..n]), steps[n].a, steps[n].r, steps[n].d);
      }
    }
  }

  /** **And a body that ends is the image**: an attempt that completes fails only
      where its last rename does. */
  lemma ACompletedAttemptSucceeds(hash: Hash, c: Catalogue, steps: seq<Step>, a: Artefact, r: Answer, d: Disk)
    requires HonestRun(hash, c, NOTHING, steps) && d.clears
    requires Honest(hash, c, End(hash, NOTHING, steps), Attempt(a, r, d))
    requires Truncates(r, d) && r.ending.Whole?
    ensures Attempted(hash, End(hash, NOTHING, steps).files, a, r, d).1 == if d.renames then Ok(()) else Err(NotRenamed)
    ensures d.renames ==> Attempted(hash, End(hash, NOTHING, steps).files, a, r, d).0.dest == Some(c(a.sha256))
  {
    ThePartialIsAPrefix(hash, c, steps);
    AttemptKeepsPrefix(hash, c, End(hash, NOTHING, steps), a, r, d);
  }

  // ---- What a cut costs ----

  /** The first `n` attempts at an image, on a disk that does as it is told. */
  function Cuts(hash: Hash, f: Files, a: Artefact, answers: seq<Answer>, n: nat): Files
    requires n <= |answers|
  {
    if n == 0 then f
    else Attempted(hash, Cuts(hash, f, a, answers, n - 1), a, answers[n - 1], GOOD_DISK).0
  }

  /** Everything they were sent, in order. */
  function AllReceived(answers: seq<Answer>, n: nat): Bytes
    requires n <= |answers| && forall i :: 0 <= i < |answers| ==> answers[i].Answer?
  {
    if n == 0 then [] else AllReceived(answers, n - 1) + Received(answers[n - 1])
  }

  /** **No byte is fetched twice** while each cut leaves something missing and
      each range is honoured: the partial is everything received, end to end. */
  lemma {:induction false} NoByteIsFetchedTwice(hash: Hash, f: Files, a: Artefact, answers: seq<Answer>, n: nat)
    requires forall i :: 0 <= i < |answers| ==> answers[i].Answer? && answers[i].status == PARTIAL_CONTENT && answers[i].ending.Cut?
    requires n <= |answers| && Have(f, a) > 0 && |f.part.value| + |AllReceived(answers, n)| < a.bytes
    ensures Cuts(hash, f, a, answers, n) == f.(part := Some(f.part.value + AllReceived(answers, n)))
  {
    if n == 0 {
      assert f.part.value + AllReceived(answers, n) == f.part.value;
    } else {
      var r, came := answers[n - 1], f.part.value + AllReceived(answers, n - 1);
      NoByteIsFetchedTwice(hash, f, a, answers, n - 1);
      OneCut(hash, f.(part := Some(came)), a, r);
      Associates(f.part.value, AllReceived(answers, n - 1), Received(r));
    }
  }

  lemma Associates(a: Bytes, b: Bytes, c: Bytes)
    ensures (a + b) + c == a + (b + c)
  {
  }

  lemma OneCut(hash: Hash, f: Files, a: Artefact, r: Answer)
    requires Have(f, a) > 0 && r.Answer? && r.status == PARTIAL_CONTENT && r.ending.Cut?
    ensures Attempted(hash, f, a, r, GOOD_DISK).0 == f.(part := Some(f.part.value + Received(r)))
  {
    assert f.part.value + Joined(r.chunks) + r.ending.torn == f.part.value + Received(r);
  }

  /** **A cut after the last byte costs the whole image**: the next attempt
      resumes exactly when something came and something is still missing. */
  lemma ResumesUnlessItAllCame(hash: Hash, f: Files, a: Artefact, r: Answer, d: Disk)
    requires Truncates(r, d) && r.ending.Cut?
    ensures var came := Base(f, a, r) + Received(r);
            var next := Attempted(hash, f, a, r, d).0;
            && next.part == Some(came)
            && (Have(next, a) == |came| <==> |came| < a.bytes || |came| == 0)
            && (Have(next, a) == 0 <==> |came| >= a.bytes || |came| == 0)
  {
    assert Base(f, a, r) + Joined(r.chunks) + r.ending.torn == Base(f, a, r) + Received(r);
  }
}
