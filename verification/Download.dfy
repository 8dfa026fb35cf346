/**
 The resumable image download (`src/agent.rs:433-609`): one attempt at an
 artefact, interrupted anywhere, over a partial and the sidecar that says which
 digest the partial was fetched for. The digest is a parameter.
 */
module Download {
  import opened Wrappers

  type Byte = bv8
  type Bytes = seq<Byte>
  type Hash = Bytes -> string

  datatype Artefact = Artefact(sha256: string, bytes: nat)

  /** How a body ends: whole, or cut after `torn`, a chunk not all written; a flush
      that fails is a cut of what it did not write. */
  datatype Ending = Whole | Cut(torn: Bytes)

  datatype Answer = NoAnswer | Answer(status: nat, chunks: seq<Bytes>, ending: Ending)

  /** What the disk does: whether a partial that may not be resumed is removed,
      whether the partial can be read back and opened, whether a wrong download's
      partial and sidecar, or a right one's sidecar, go, and whether a right one
      is renamed. */
  datatype Disk = Disk(clears: bool, opens: bool, dropsPart: bool, dropsStamp: bool, renames: bool)

  datatype Files = Files(part: Option<Bytes>, stamp: Option<string>, dest: Option<Bytes>)

  datatype Failure = NotAnswered | RefusedWith(status: nat) | NotOpened | Died(after: nat) | WrongBytes(written: nat) | NotRenamed

  const PARTIAL_CONTENT: nat := 206
  const BUFFER: nat := 1048576

  predicate Succeeded(status: nat) {
    200 <= status < 300
  }

  // ---- One attempt ----

  /** How much of what is here may be resumed: fetched for this digest, not
      empty, and short of the whole. */
  function Have(f: Files, a: Artefact): nat {
    if f.stamp == Some(a.sha256) && f.part.Some? && |f.part.value| < a.bytes then |f.part.value| else 0
  }

  /** The files once an attempt has decided what it resumes. */
  function Prepared(f: Files, a: Artefact, d: Disk): Files {
    if Have(f, a) > 0 then f
    else f.(part := if d.clears then None else f.part, stamp := Some(a.sha256))
  }

  predicate Appends(f: Files, a: Artefact, r: Answer) {
    r.Answer? && Have(f, a) > 0 && r.status == PARTIAL_CONTENT
  }

  function Joined(chunks: seq<Bytes>): Bytes {
    if chunks == [] then [] else Joined(chunks[..|chunks| - 1]) + chunks[|chunks| - 1]
  }

  /** What the body is written after: the partial, or nothing. */
  function Base(f: Files, a: Artefact, r: Answer): Bytes {
    if Appends(f, a, r) then f.part.value else []
  }

  function Attempted(hash: Hash, f: Files, a: Artefact, r: Answer, d: Disk): (Files, Result<(), Failure>) {
    var g := Prepared(f, a, d);
    if r.NoAnswer? then (g, Err(NotAnswered))
    else if !Succeeded(r.status) then (g, Err(RefusedWith(r.status)))
    else if !d.opens then (g, Err(NotOpened))
    else
      var got := Base(f, a, r) + Joined(r.chunks);
      match r.ending
      case Cut(torn) => (g.(part := Some(got + torn)), Err(Died(|got|)))
      case Whole =>
        if hash(got) != a.sha256 || |got| != a.bytes then
          (g.(part := if d.dropsPart then None else Some(got), stamp := if d.dropsStamp then None else g.stamp), Err(WrongBytes(|got|)))
        else if !d.renames then (g.(part := Some(got)), Err(NotRenamed))
        else
          (Files(None, if d.dropsStamp then None else g.stamp, Some(got)), Ok(()))
  }

  class Store {
    var part: Option<Bytes>
    var stamp: Option<string>
    var dest: Option<Bytes>

    function Now(): Files
      reads this
    {
      Files(part, stamp, dest)
    }

    /** What is here, and from where it may be resumed. */
    method Prepare(a: Artefact, d: Disk) returns (have: nat)
      modifies this
      ensures Now() == Prepared(old(Now()), a, d) && have == Have(old(Now()), a)
    {
      var resumable := stamp == Some(a.sha256);
      have := 0;
      if resumable {
        have := if part.Some? then |part.value| else 0;
      } else if d.clears {
        part := None;
      }
      have := if 0 < have < a.bytes then have else 0;
      if have == 0 {
        if d.clears {
          part := None;
        }
        stamp := Some(a.sha256);
      }
    }

    /** The partial read back through the digest, a buffer at a time. */
    method ReadBack() returns (hashed: Bytes, written: nat)
      requires part.Some?
      ensures hashed == part.value && written == |hashed|
    {
      var file := part.value;
      hashed, written := [], 0;
      while written < |file|
        invariant written == |hashed| <= |file|
        invariant hashed == file[..written]
      {
        var n := if |file| - written < BUFFER then |file| - written else BUFFER;
        hashed := hashed + file[written..written + n];
        written := written + n;
      }
    }

    /** The body's chunks, hashed and written as they come: what was hashed is
        what the partial holds. */
    method Stream(base: Bytes, chunks: seq<Bytes>) returns (hashed: Bytes, written: nat)
      requires part == Some(base)
      modifies this`part
      ensures hashed == base + Joined(chunks)
      ensures part == Some(hashed) && written == |hashed|
    {
      hashed, written := base, |base|;
      var i := 0;
      while i < |chunks|
        invariant 0 <= i <= |chunks|
        invariant part == Some(hashed) && written == |hashed|
        invariant hashed == base + Joined(chunks[..i])
      {
        var chunk := chunks[i];
        assert chunks[..i + 1][..i] == chunks[..i];
        hashed := hashed + chunk;
        written := written + |chunk|;
        part := Some(part.value + chunk);
        i := i + 1;
      }
      assert chunks[..i] == chunks;
    }

    method DownloadArtefact(hash: Hash, a: Artefact, r: Answer, d: Disk) returns (result: Result<(), Failure>)
      modifies this
      ensures (Now(), result) == Attempted(hash, old(Now()), a, r, d)
    {
      var have := Prepare(a, d);
      if r.NoAnswer? {
        return Err(NotAnswered);
      }
      if !Succeeded(r.status) {
        return Err(RefusedWith(r.status));
      }
      if !d.opens {
        return Err(NotOpened);
      }
      var appending := have > 0 && r.status == PARTIAL_CONTENT;
      var hashed: Bytes, written := [], 0;
      if appending {
        hashed, written := ReadBack();
      } else {
        part := Some([]);
      }
      hashed, written := Stream(hashed, r.chunks);
      if r.ending.Cut? {
        part := Some(part.value + r.ending.torn);
        return Err(Died(written));
      }
      if hash(hashed) != a.sha256 || written != a.bytes {
        if d.dropsPart {
          part := None;
        }
        if d.dropsStamp {
          stamp := None;
        }
        return Err(WrongBytes(written));
      }
      if !d.renames {
        return Err(NotRenamed);
      }
      dest := part;
      part := None;
      if d.dropsStamp {
        stamp := None;
      }
      return Ok(());
    }
  }
}
