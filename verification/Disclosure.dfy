/**
 Honest disclosure (`src/disclosure.rs`): what the owner's own guests take out
 of the slice a node contributes. vCPUs and bytes are reals, rounded up as the
 source rounds them; a storage line's size is read by a parameter.
 */
module Disclosure {
  import opened Wrappers
  import opened Order

  type SizeOf = string -> Option<nat>

  /** One entry of a guest's configuration; no text when it is not a string. */
  datatype Entry = Entry(key: string, text: Option<string>)

  /** A guest as listed and configured: no configuration when it is not an
      object, no figure when it is not a number. */
  datatype Guest = Guest(status: Option<string>, cpus: Option<real>, maxmem: Option<real>, config: Option<seq<Entry>>)

  datatype Refusal = NotAnObject | PowerUnobserved | CpusNotListed | MemoryNotListed

  datatype Use = Use(cores: nat, memory: nat, disk: map<string, nat>, guests: nat)

  const MIB: real := 1048576.0
  const NUMBERED := ["scsi", "virtio", "sata", "ide", "mp"]
  const NONE := Use(0, 0, map[], 0)

  function Ceil(r: real): (c: int)
    ensures c as real - 1.0 < r <= c as real
    ensures r >= 0.0 ==> c >= 0
  {
    if r == r.Floor as real then r.Floor else r.Floor + 1
  }

  // ---- The volumes of a configuration ----

  predicate IsNumbered(key: string, bus: string) {
    |key| > |bus| && key[..|bus|] == bus && forall i :: |bus| <= i < |key| ==> '0' <= key[i] <= '9'
  }

  predicate GivesAVolume(key: string) {
    key == "rootfs" || exists i :: 0 <= i < |NUMBERED| && IsNumbered(key, NUMBERED[i])
  }

  /** Where the first of `cs` stands, or the end. */
  function Until(s: string, cs: set<char>): (k: nat)
    ensures k <= |s| && (k < |s| ==> s[k] in cs) && forall i :: 0 <= i < k ==> s[i] !in cs
  {
    if s == [] || s[0] in cs then 0 else 1 + Until(s[1..], cs)
  }

  /** The storage before the colon of the first comma-separated part. */
  function StorageOf(raw: string): Option<string> {
    var k := Until(raw, {':', ','});
    if k == |raw| || raw[k] == ',' || k == 0 || raw[0] == '/' then None else Some(raw[..k])
  }

  /** A line's storage and size, if it gives both. */
  function VolumeOf(e: Entry, size: SizeOf): Option<(string, nat)> {
    if !GivesAVolume(e.key) || e.text.None? || StorageOf(e.text.value).None? || size(e.text.value).None? then None
    else Some((StorageOf(e.text.value).value, size(e.text.value).value))
  }

  /** Every volume a configuration gives a storage and a size. */
  function Volumes(config: seq<Entry>, size: SizeOf): seq<(string, nat)> {
    if config == [] then []
    else
      var v := VolumeOf(config[0], size);
      (if v.Some? then [v.value] else []) + Volumes(config[1..], size)
  }

  predicate AreDigits(s: string) {
    s != [] && forall i :: 0 <= i < |s| ==> '0' <= s[i] <= '9'
  }

  /** **Which lines are volumes**: a container's root, and one of the five names
      with a number after it. */
  lemma WhichLinesAreVolumes(key: string)
    ensures GivesAVolume(key) <==>
            || key == "rootfs"
            || (exists k :: 0 <= k <= |key| && key[..k] in {"scsi", "virtio", "sata", "ide", "mp"} && AreDigits(key[k..]))
  {
    forall i | 0 <= i < |NUMBERED| && IsNumbered(key, NUMBERED[i])
      ensures NUMBERED[i] in {"scsi", "virtio", "sata", "ide", "mp"} && AreDigits(key[|NUMBERED[i]|..])
    {
    }
    if k :| 0 <= k <= |key| && key[..k] in {"scsi", "virtio", "sata", "ide", "mp"} && AreDigits(key[k..]) {
      assert forall i :: k <= i < |key| ==> key[i] == key[k..][i - k];
      assert NUMBERED[0] == "scsi" && NUMBERED[1] == "virtio" && NUMBERED[2] == "sata" && NUMBERED[3] == "ide" && NUMBERED[4] == "mp";
      var i :| 0 <= i < |NUMBERED| && NUMBERED[i] == key[..k];
      assert IsNumbered(key, NUMBERED[i]);
    }
  }

  /** **Which storage a line names**: what stands before its first colon, if
      that is something, is no path, and comes before any comma. */
  lemma WhichStorageALineNames(raw: string, storage: string)
    ensures StorageOf(raw) == Some(storage) <==>
            && storage + ":" <= raw
            && storage != [] && storage[0] != '/' && ':' !in storage && ',' !in storage
  {
    var k := Until(raw, {':', ','});
    if storage + ":" <= raw {
      assert raw[..|storage|] == storage && raw[|storage|] == ':';
      assert forall i :: 0 <= i < |storage| ==> raw[i] == storage[i];
      if ':' !in storage && ',' !in storage {
        assert k == |storage|;
      }
    }
    if k < |raw| && raw[k] == ':' {
      assert raw[..k] + ":" == raw[..k + 1];
      forall c | c in raw[..k] ensures c != ':' && c != ',' {
        var i :| 0 <= i < k && raw[i] == c;
      }
    }
  }

  /** Every line's volume, in order. */
  lemma {:induction false} VolumesOfBoth(a: seq<Entry>, b: seq<Entry>, size: SizeOf)
    ensures Volumes(a + b, size) == Volumes(a, size) + Volumes(b, size)
  {
    if a == [] {
      assert a + b == b;
    } else {
      assert (a + b)[1..] == a[1..] + b;
      VolumesOfBoth(a[1..], b, size);
    }
  }

  /** **What a line gives**: its storage and its size, exactly when it is a
      volume's and both can be read of its text. */
  lemma WhatALineGives(e: Entry, size: SizeOf, v: (string, nat))
    ensures Volumes([e], size) == [v] <==>
            && GivesAVolume(e.key) && e.text.Some?
            && StorageOf(e.text.value) == Some(v.0) && size(e.text.value) == Some(v.1)
    ensures Volumes([e], size) == [] || |Volumes([e], size)| == 1
  {
    var one := VolumeOf(e, size);
    assert Volumes([e], size) == (if one.Some? then [one.value] else []) + Volumes([e][1..], size);
    assert one.Some? && [one.value] == [v] ==> [one.value][0] == [v][0];
  }

  // ---- Uses added up ----

  function On(disk: map<string, nat>, storage: string): nat {
    if storage in disk then disk[storage] else 0
  }

  function Merged(a: map<string, nat>, b: map<string, nat>): map<string, nat> {
    map s | s in a.Keys + b.Keys :: On(a, s) + On(b, s)
  }

  ghost predicate IsMerged(m: map<string, nat>, a: map<string, nat>, b: map<string, nat>) {
    && m.Keys == a.Keys + b.Keys
    && forall s :: On(m, s) == On(a, s) + On(b, s)
  }

  lemma MergedOnly(m: map<string, nat>, a: map<string, nat>, b: map<string, nat>)
    ensures IsMerged(m, a, b) <==> m == Merged(a, b)
  {
    if IsMerged(m, a, b) {
      forall s | s in m ensures m[s] == Merged(a, b)[s] {
        assert On(m, s) == On(a, s) + On(b, s);
      }
    }
  }

  lemma MergedOneMore(m: map<string, nat>, a: map<string, nat>, b: map<string, nat>, storage: string, gib: nat)
    requires IsMerged(m, a, b)
    ensures IsMerged(m[storage := On(m, storage) + gib], a, b[storage := On(b, storage) + gib])
  {
    var n, c := m[storage := On(m, storage) + gib], b[storage := On(b, storage) + gib];
    forall s ensures On(n, s) == On(a, s) + On(c, s) {
      assert On(m, s) == On(a, s) + On(b, s);
    }
  }

  function Plus(a: Use, b: Use): Use {
    Use(a.cores + b.cores, a.memory + b.memory, Merged(a.disk, b.disk), a.guests + b.guests)
  }

  /** What the first `n` volumes hold, by storage. */
  function Disks(volumes: seq<(string, nat)>, n: nat): map<string, nat>
    requires n <= |volumes|
  {
    if n == 0 then map[]
    else
      var before := Disks(volumes, n - 1);
      var (storage, gib) := volumes[n - 1];
      before[storage := On(before, storage) + gib]
  }

  /** What the volumes of one storage hold together. */
  function Held(volumes: seq<(string, nat)>, storage: string): nat {
    if volumes == [] then 0
    else (if volumes[0].0 == storage then volumes[0].1 else 0) + Held(volumes[1..], storage)
  }

  lemma {:induction false} HeldWithOneMore(volumes: seq<(string, nat)>, v: (string, nat), storage: string)
    ensures Held(volumes + [v], storage) == Held(volumes, storage) + if v.0 == storage then v.1 else 0
  {
    if volumes != [] {
      assert (volumes + [v])[1..] == volumes[1..] + [v];
      HeldWithOneMore(volumes[1..], v, storage);
    }
  }

  /** **Storage by storage**: each is charged the sizes of its own volumes. */
  lemma {:induction false} DisksAreSums(volumes: seq<(string, nat)>, n: nat, storage: string)
    requires n <= |volumes|
    ensures On(Disks(volumes, n), storage) == Held(volumes[..n], storage)
  {
    if n > 0 {
      DisksAreSums(volumes, n - 1, storage);
      assert volumes[..n] == volumes[..n - 1] + [volumes[n - 1]];
      HeldWithOneMore(volumes[..n - 1], volumes[n - 1], storage);
    }
  }

  /** A disk's entries, by storage. */
  function Entries(disk: map<string, nat>): (r: seq<(string, nat)>)
    ensures |r| == |Sorted(disk.Keys)|
    ensures forall i :: 0 <= i < |r| ==> r[i].0 == Sorted(disk.Keys)[i] && r[i].0 in disk && r[i].1 == disk[r[i].0]
  {
    var keys := Sorted(disk.Keys);
    seq(|keys|, i requires 0 <= i < |keys| => assert keys[i] in disk; (keys[i], disk[keys[i]]))
  }

  lemma {:induction false} DisksHold(volumes: seq<(string, nat)>, keys: seq<string>, n: nat)
    requires n <= |volumes| == |keys| && Ascending(keys)
    requires forall i :: 0 <= i < |keys| ==> volumes[i].0 == keys[i]
    ensures forall s :: s in Disks(volumes, n) <==> s in keys[..n]
    ensures forall i :: 0 <= i < n ==> keys[i] in Disks(volumes, n) && Disks(volumes, n)[keys[i]] == volumes[i].1
  {
    if n > 0 {
      DisksHold(volumes, keys, n - 1);
      assert keys[..n] == keys[..n - 1] + [keys[n - 1]];
      NotBefore(keys, n - 1);
      var before := Disks(volumes, n - 1);
      assert Disks(volumes, n) == before[keys[n - 1] := volumes[n - 1].1];
      forall i | 0 <= i < n - 1 ensures keys[i] != keys[n - 1] {
        LessIsAsymmetric(keys[i], keys[n - 1]);
      }
    }
  }

  lemma NotBefore(keys: seq<string>, n: nat)
    requires Ascending(keys) && n < |keys|
    ensures keys[n] !in keys[..n]
  {
    if keys[n] in keys[..n] {
      var i :| 0 <= i < n && keys[..n][i] == keys[n];
      LessIsAsymmetric(keys[i], keys[n]);
    }
  }

  lemma DisksOfEntries(disk: map<string, nat>)
    ensures Disks(Entries(disk), |Entries(disk)|) == disk
  {
    var keys := Sorted(disk.Keys);
    var held := Disks(Entries(disk), |keys|);
    DisksHold(Entries(disk), keys, |keys|);
    assert keys[..|keys|] == keys;
    forall s | s in disk ensures s in held && held[s] == disk[s] {
      var i :| 0 <= i < |keys| && keys[i] == s;
    }
  }

  /** What one guest takes, or why it cannot be said. */
  function Takes(g: Guest, size: SizeOf): Result<Use, Refusal> {
    if g.config.None? then Err(NotAnObject)
    else
      var volumes := Volumes(g.config.value, size);
      var disk := Disks(volumes, |volumes|);
      if g.status == Some("stopped") then Ok(Use(0, 0, disk, 1))
      else if g.status != Some("running") && g.status != Some("paused") then Err(PowerUnobserved)
      else if g.cpus.None? || g.cpus.value < 0.0 then Err(CpusNotListed)
      else if g.maxmem.None? || g.maxmem.value < 0.0 then Err(MemoryNotListed)
      else Ok(Use(Ceil(g.cpus.value), Ceil(g.maxmem.value / MIB), disk, 1))
  }

  /** The least whole number no less than `r`. */
  predicate IsCeil(c: int, r: real) {
    (c - 1) as real < r <= c as real
  }

  /** **What a guest takes**: one guest, its disks whatever its power, and while
      it runs or is paused its vCPUs and MiB, rounded up. */
  lemma WhatAGuestTakes(g: Guest, size: SizeOf, storage: string)
    requires Takes(g, size).Ok?
    ensures var took := Takes(g, size).value;
            && took.guests == 1
            && On(took.disk, storage) == Held(Volumes(g.config.value, size), storage)
            && (g.status == Some("stopped") ==> took.cores == 0 && took.memory == 0)
            && (g.status != Some("stopped") ==> IsCeil(took.cores, g.cpus.value) && IsCeil(took.memory, g.maxmem.value / 1048576.0))
  {
    var volumes := Volumes(g.config.value, size);
    DisksAreSums(volumes, |volumes|, storage);
    assert volumes[..|volumes|] == volumes;
  }

  /** **When a guest is refused**: exactly when its configuration or its power
      is not read, or it runs and one of its figures is not. */
  lemma WhenAGuestIsRefused(g: Guest, size: SizeOf)
    ensures Takes(g, size).Ok? <==>
            && g.config.Some?
            && (g.status == Some("stopped") ||
                (g.status in {Some("running"), Some("paused")} && g.cpus.Some? && g.cpus.value >= 0.0 && g.maxmem.Some? && g.maxmem.value >= 0.0))
    ensures Takes(g, size) == Err(NotAnObject) <==> g.config.None?
    ensures Takes(g, size) == Err(PowerUnobserved) <==>
            g.config.Some? && g.status !in {Some("running"), Some("paused"), Some("stopped")}
    ensures Takes(g, size) == Err(CpusNotListed) <==>
            && g.config.Some? && g.status in {Some("running"), Some("paused")}
            && (g.cpus.None? || g.cpus.value < 0.0)
  {
    assert "running" != "paused" && "running" != "stopped" && "paused" != "stopped" by {
      assert "running"[0] == 'r' && "paused"[0] == 'p' && "stopped"[0] == 's';
    }
  }

  class OwnerUse {
    var runningCores: nat
    var runningMemoryMib: nat
    var diskGib: map<string, nat>
    var guests: nat

    constructor ()
      ensures Now() == NONE
    {
      runningCores, runningMemoryMib, diskGib, guests := 0, 0, map[], 0;
    }

    function Now(): Use
      reads this
    {
      Use(runningCores, runningMemoryMib, diskGib, guests)
    }

    /** One guest of the owner's; one that cannot be read changes nothing. */
    method Observe(g: Guest, size: SizeOf) returns (r: Result<(), Refusal>)
      modifies this
      ensures match Takes(g, size)
              case Err(why) => r == Err(why) && Now() == old(Now())
              case Ok(took) => r == Ok(()) && Now() == Plus(old(Now()), took)
    {
      if g.config.None? {
        return Err(NotAnObject);
      }
      var running;
      if g.status == Some("running") || g.status == Some("paused") {
        running := true;
      } else if g.status == Some("stopped") {
        running := false;
      } else {
        return Err(PowerUnobserved);
      }
      if running {
        if g.cpus.None? || g.cpus.value < 0.0 {
          return Err(CpusNotListed);
        }
        if g.maxmem.None? || g.maxmem.value < 0.0 {
          return Err(MemoryNotListed);
        }
        runningCores := runningCores + Ceil(g.cpus.value);
        runningMemoryMib := runningMemoryMib + Ceil(g.maxmem.value / MIB);
      }
      ObserveDisks(Volumes(g.config.value, size));
      guests := guests + 1;
      return Ok(());
    }

    method ObserveDisks(volumes: seq<(string, nat)>)
      modifies this`diskGib
      ensures diskGib == Merged(old(diskGib), Disks(volumes, |volumes|))
    {
      var i := 0;
      while i < |volumes|
        invariant 0 <= i <= |volumes|
        invariant IsMerged(diskGib, old(diskGib), Disks(volumes, i))
      {
        var (storage, gib) := volumes[i];
        MergedOneMore(diskGib, old(diskGib), Disks(volumes, i), storage, gib);
        diskGib := diskGib[storage := On(diskGib, storage) + gib];
        i := i + 1;
      }
      MergedOnly(diskGib, old(diskGib), Disks(volumes, i));
    }

    /** Another listing's use. */
    method Add(other: Use)
      modifies this
      ensures Now() == Plus(old(Now()), other)
    {
      runningCores := runningCores + other.cores;
      runningMemoryMib := runningMemoryMib + other.memory;
      DisksOfEntries(other.disk);
      ObserveDisks(Entries(other.disk));
      guests := guests + other.guests;
    }
  }

  // ---- What is disclosed ----

  /** A figure of each resource: vCPUs, MiB, GiB. */
  datatype Figures = Figures(cpu: nat, memory: nat, disk: nat)

  datatype Node = Node(host: Figures, reported: Figures)

  datatype Commitment = Commitment(cpuCores: nat, memoryMib: nat, diskGib: nat, guests: nat)

  function SaturatingSub(a: nat, b: nat): nat {
    if a >= b then a - b else 0
  }

  function Intrusion(owner: nat, host: nat, reported: nat): nat {
    var over := SaturatingSub(owner, SaturatingSub(host, reported));
    if over <= reported then over else reported
  }

  function Sum(disk: map<string, nat>, storages: set<string>, keys: seq<string>, n: nat): nat
    requires n <= |keys|
  {
    if n == 0 then 0
    else Sum(disk, storages, keys, n - 1) + if keys[n - 1] in storages then On(disk, keys[n - 1]) else 0
  }

  /** The disk on the storages a node contributes. */
  function DiskOn(disk: map<string, nat>, storages: set<string>): nat {
    var keys := Sorted(disk.Keys);
    Sum(disk, storages, keys, |keys|)
  }

  lemma {:induction false} SumWithOneMore(disk: map<string, nat>, storages: set<string>, more: string, keys: seq<string>, n: nat)
    requires n <= |keys| && Ascending(keys) && more !in storages
    ensures Sum(disk, storages + {more}, keys, n) == Sum(disk, storages, keys, n) + if more in keys[..n] then On(disk, more) else 0
    ensures Sum(disk, {}, keys, n) == 0
  {
    if n > 0 {
      SumWithOneMore(disk, storages, more, keys, n - 1);
      assert keys[..n] == keys[..n - 1] + [keys[n - 1]];
      NotBefore(keys, n - 1);
    }
  }

  /** **Only the storages contributed count**, each once: none is nothing, and
      one more adds what is held on it. */
  lemma OneStorageMore(disk: map<string, nat>, storages: set<string>, more: string)
    requires more !in storages
    ensures DiskOn(disk, storages + {more}) == DiskOn(disk, storages) + On(disk, more)
    ensures DiskOn(disk, {}) == 0
  {
    var keys := Sorted(disk.Keys);
    SumWithOneMore(disk, storages, more, keys, |keys|);
    assert keys[..|keys|] == keys;
  }

  const U32: nat := 0x1_0000_0000

  method Commit(owner: Use, node: Node, storages: set<string>) returns (c: Commitment)
    ensures c.cpuCores == Intrusion(owner.cores, node.host.cpu, node.reported.cpu) % U32
    ensures c.memoryMib == Intrusion(owner.memory, node.host.memory, node.reported.memory)
    ensures c.diskGib == Intrusion(DiskOn(owner.disk, storages), node.host.disk, node.reported.disk)
    ensures c.guests == owner.guests
  {
    var keys := Sorted(owner.disk.Keys);
    var disk := 0;
    var i := 0;
    while i < |keys|
      invariant 0 <= i <= |keys|
      invariant disk == Sum(owner.disk, storages, keys, i)
    {
      if keys[i] in storages {
        disk := disk + owner.disk[keys[i]];
      }
      i := i + 1;
    }
    c := Commitment(Intrusion(owner.cores, node.host.cpu, node.reported.cpu) % U32,
                    Intrusion(owner.memory, node.host.memory, node.reported.memory),
                    Intrusion(disk, node.host.disk, node.reported.disk),
                    owner.guests);
  }
}
