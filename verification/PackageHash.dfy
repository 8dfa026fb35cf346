/**
 What the package's version is the hash of (`packaging/version.py:57-102`): the
 inputs, those under the build root and those beside them, and the listing that
 is hashed.
 */
module PackageHash {
  import opened Wrappers
  import opened Order
  import opened UnitCheck

  const UNDER_ROOT := "/w/"
  const GENERATED := "target"

  /** Generated by the build itself: `target`, or under it. */
  predicate IsGenerated(rel: string) {
    rel == GENERATED || Starts(rel, GENERATED + "/")
  }

  /** The inputs a dep-info names, relative to the build root. */
  method InputsOf(listed: seq<string>) returns (found: set<string>)
    ensures forall rel :: rel in found <==> UNDER_ROOT + rel in listed && !IsGenerated(rel)
  {
    found := {};
    var i := 0;
    while i < |listed|
      invariant 0 <= i <= |listed|
      invariant forall rel :: rel in found <==> UNDER_ROOT + rel in listed[..i] && !IsGenerated(rel)
    {
      var p := listed[i];
      assert listed[..i + 1] == listed[..i] + [p];
      i := i + 1;
      if !Starts(p, UNDER_ROOT) {
        assert forall rel :: (UNDER_ROOT + rel)[..3] == UNDER_ROOT;
        continue;
      }
      var rel := p[|UNDER_ROOT|..];
      assert p == UNDER_ROOT + rel;
      assert forall r :: (UNDER_ROOT + r)[3..] == r;
      if IsGenerated(rel) {
        continue;
      }
      found := found + {rel};
    }
  }

  const FIXED := {"Cargo.lock", "Cargo.toml", "packaging/build-deb.sh", "README.md", "LICENSE"}
  const IF_THERE := {".cargo/config.toml", ".cargo/config", "rust-toolchain", "rust-toolchain.toml"}

  /** One crate's manifest: `crates`, a directory, and its `Cargo.toml`. */
  predicate IsManifest(rel: string) {
    var first, last := "crates/", "/Cargo.toml";
    && |first| + |last| < |rel| && Starts(rel, first) && rel[|rel| - |last|..] == last
    && '/' !in rel[|first|..|rel| - |last|]
  }

  predicate IsShipped(rel: string) {
    Starts(rel, "packaging/deb/")
  }

  /** One of the first `n` dep-info files names it, under the build root. */
  ghost predicate IsListed(depInfos: seq<Option<seq<string>>>, n: nat, rel: string)
    requires n <= |depInfos|
  {
    !IsGenerated(rel) && exists i :: 0 <= i < n && depInfos[i].Some? && UNDER_ROOT + rel in depInfos[i].value
  }

  ghost predicate IsInput(depInfos: seq<Option<seq<string>>>, files: set<string>, rel: string) {
    || IsListed(depInfos, |depInfos|, rel)
    || rel in FIXED
    || (rel in files && (rel in IF_THERE || IsManifest(rel) || IsShipped(rel)))
  }

  lemma StartsIsWithMore(s: string, p: string)
    ensures Starts(s, p) <==> exists rest :: s == p + rest
  {
    if Starts(s, p) {
      assert s == p + s[|p|..];
    }
    if rest :| s == p + rest {
      assert s[..|p|] == p;
    }
  }

  /** **What is generated**: `target` itself, or a path under it. */
  lemma WhatIsGenerated(rel: string)
    ensures IsGenerated(rel) <==> rel == "target" || exists rest :: rel == "target/" + rest
  {
    assert GENERATED + "/" == "target/";
    StartsIsWithMore(rel, "target/");
  }

  /** **What a manifest is**: the `Cargo.toml` of one directory of `crates`. */
  lemma WhatAManifestIs(rel: string)
    ensures IsManifest(rel) <==> exists name :: name != "" && '/' !in name && rel == "crates/" + name + "/Cargo.toml"
  {
    var first, last := "crates/", "/Cargo.toml";
    if IsManifest(rel) {
      var name := rel[|first|..|rel| - |last|];
      assert rel == rel[..|first|] + name + rel[|rel| - |last|..];
    }
    if name :| name != "" && '/' !in name && rel == first + name + last {
      assert rel[..|first|] == first && rel[|first|..|rel| - |last|] == name && rel[|rel| - |last|..] == last;
    }
  }

  /** **What is hashed**: what a dep-info names under the build root, but what the
      build generates; five files always; and of the files there, the settings
      of the toolchain, the crates' manifests and all of `packaging/deb`. */
  lemma WhatTheInputsAre(depInfos: seq<Option<seq<string>>>, files: set<string>, rel: string)
    ensures IsInput(depInfos, files, rel) <==>
            || ((exists listed :: Some(listed) in depInfos && "/w/" + rel in listed)
                && rel != "target" && forall rest :: rel != "target/" + rest)
            || rel in ["Cargo.lock", "Cargo.toml", "packaging/build-deb.sh", "README.md", "LICENSE"]
            || (rel in files
                && (|| rel in [".cargo/config.toml", ".cargo/config", "rust-toolchain", "rust-toolchain.toml"]
                    || (exists name :: name != "" && '/' !in name && rel == "crates/" + name + "/Cargo.toml")
                    || (exists rest :: rel == "packaging/deb/" + rest)))
  {
    WhatIsGenerated(rel);
    WhatAManifestIs(rel);
    StartsIsWithMore(rel, "packaging/deb/");
    if listed :| Some(listed) in depInfos && "/w/" + rel in listed {
      var i :| 0 <= i < |depInfos| && depInfos[i] == Some(listed);
      assert depInfos[i].value == listed;
    }
    if i :| 0 <= i < |depInfos| && depInfos[i].Some? && UNDER_ROOT + rel in depInfos[i].value {
      assert Some(depInfos[i].value) in depInfos;
    }
  }

  datatype Refusal = NoDepInfo(i: nat) | ListsNothing(i: nat) | Missing(paths: set<string>)

  /** Every input under the root, by path; a dep-info file not there or empty, or
      an input not there, is refused. `None` is a dep-info file not there. */
  method Inputs(depInfos: seq<Option<seq<string>>>, files: set<string>) returns (r: Result<seq<string>, Refusal>)
    ensures r.Ok? <==>
              && (forall i :: 0 <= i < |depInfos| ==> depInfos[i].Some? && depInfos[i].value != [])
              && forall rel :: IsInput(depInfos, files, rel) ==> rel in files
    ensures r.Ok? ==> Ascending(r.value) && forall rel :: rel in r.value <==> IsInput(depInfos, files, rel)
    ensures r.Err? && r.error.Missing? ==> forall rel :: rel in r.error.paths <==> IsInput(depInfos, files, rel) && rel !in files
  {
    var found: set<string> := {};
    var i := 0;
    while i < |depInfos|
      invariant 0 <= i <= |depInfos|
      invariant forall j :: 0 <= j < i ==> depInfos[j].Some? && depInfos[j].value != []
      invariant forall rel :: rel in found <==> IsListed(depInfos, i, rel)
    {
      if depInfos[i].None? {
        return Err(NoDepInfo(i));
      }
      if depInfos[i].value == [] {
        return Err(ListsNothing(i));
      }
      var listed := InputsOf(depInfos[i].value);
      found := found + listed;
      i := i + 1;
    }
    found := found + FIXED;
    found := found + set f | f in files && (f in IF_THERE || IsManifest(f) || IsShipped(f));
    assert forall rel :: rel in found <==> IsInput(depInfos, files, rel);
    var missing := found - files;
    if missing != {} {
      var one :| one in missing;
      assert IsInput(depInfos, files, one);
      return Err(Missing(missing));
    }
    assert forall rel :: rel in found ==> rel in files || rel in missing;
    r := Ok(Sorted(found));
  }

  // ---- The listing ----

  /** One line of the listing: the file's digest, two spaces, its path. */
  function Line(digest: string, path: string): string {
    digest + "  " + path + "\n"
  }

  /** The first `n` paths' lines. */
  function Listing(digests: map<string, string>, paths: seq<string>, n: nat): string
    requires n <= |paths| && forall p :: p in paths ==> p in digests
  {
    if n == 0 then [] else Listing(digests, paths, n - 1) + Line(digests[paths[n - 1]], paths[n - 1])
  }

  /** What is hashed: every input's line, by path. */
  function Hashed(digests: map<string, string>): string {
    var paths := Sorted(digests.Keys);
    Listing(digests, paths, |paths|)
  }

  method Version(digests: map<string, string>) returns (hashed: string)
    ensures hashed == Hashed(digests)
  {
    hashed := [];
    var paths := Sorted(digests.Keys);
    var i := 0;
    while i < |paths|
      invariant 0 <= i <= |paths|
      invariant hashed == Listing(digests, paths, i)
    {
      hashed := hashed + Line(digests[paths[i]], paths[i]);
      i := i + 1;
    }
  }

  /** Digests of one length, and paths and digests of one line. */
  ghost predicate Listable(digests: map<string, string>, length: nat) {
    forall p :: p in digests ==> |digests[p]| == length && '\n' !in digests[p] && '\n' !in p
  }

  /** Two first lines, each with its rest, that read the same are the same. */
  lemma TheSameFirstLine(a: string, restA: string, b: string, restB: string)
    requires '\n' !in a && '\n' !in b && a + "\n" + restA == b + "\n" + restB
    ensures a == b && restA == restB
  {
    var s := a + "\n" + restA;
    assert s[|a|] == '\n' && s[|b|] == '\n';
    assert forall i :: 0 <= i < |a| ==> s[i] == a[i];
    assert forall i :: 0 <= i < |b| ==> s[i] == b[i];
    assert a == s[..|a|] == b;
    assert restA == s[|a| + 1..] == restB;
  }

  /** The same listing, line by line from the first. */
  function From(digests: map<string, string>, paths: seq<string>): string
    requires forall p :: p in paths ==> p in digests
  {
    if paths == [] then [] else Line(digests[paths[0]], paths[0]) + From(digests, paths[1..])
  }

  lemma {:induction false} ListingFrom(digests: map<string, string>, paths: seq<string>, n: nat)
    requires n <= |paths| && forall p :: p in paths ==> p in digests
    ensures Listing(digests, paths, n) + From(digests, paths[n..]) == From(digests, paths)
  {
    if n == 0 {
      assert paths[0..] == paths;
    } else {
      ListingFrom(digests, paths, n - 1);
      assert paths[n - 1..][1..] == paths[n..];
    }
  }

  lemma {:induction false} TheSameLines(d: map<string, string>, e: map<string, string>, p: seq<string>, q: seq<string>, length: nat)
    requires Listable(d, length) && Listable(e, length)
    requires (forall x :: x in p ==> x in d) && (forall x :: x in q ==> x in e)
    requires From(d, p) == From(e, q)
    ensures p == q && forall x :: x in p ==> d[x] == e[x]
  {
    if p != [] && q != [] {
      var a, b := d[p[0]] + "  " + p[0], e[q[0]] + "  " + q[0];
      assert From(d, p) == a + "\n" + From(d, p[1..]);
      assert From(e, q) == b + "\n" + From(e, q[1..]);
      TheSameFirstLine(a, From(d, p[1..]), b, From(e, q[1..]));
      assert d[p[0]] == a[..length] == e[q[0]];
      assert p[0] == a[length + 2..] == q[0];
      TheSameLines(d, e, p[1..], q[1..], length);
      assert p == [p[0]] + p[1..] && q == [q[0]] + q[1..];
    }
  }

  /** **The listing says which file has which digest**: two sets of inputs of
      one-line paths are hashed over the same bytes only if they are the same,
      path by path and digest by digest. */
  lemma TheListingIsTheInputs(d: map<string, string>, e: map<string, string>, length: nat)
    requires Listable(d, length) && Listable(e, length)
    ensures Hashed(d) == Hashed(e) <==> d == e
  {
    if Hashed(d) == Hashed(e) {
      var p, q := Sorted(d.Keys), Sorted(e.Keys);
      ListingFrom(d, p, |p|);
      ListingFrom(e, q, |q|);
      assert p[|p|..] == [] && q[|q|..] == [];
      TheSameLines(d, e, p, q, length);
      assert d.Keys == e.Keys;
    }
  }

  lemma HashedInOrder(digests: map<string, string>, paths: seq<string>)
    requires Ascending(paths) && forall p :: p in paths <==> p in digests
    ensures Hashed(digests) == From(digests, paths)
  {
    AscendingIsUnique(Sorted(digests.Keys), paths);
    ListingFrom(digests, paths, |paths|);
    assert paths[|paths|..] == [];
  }

  lemma HashedOfOne(p: string, x: string)
    ensures Hashed(map[p := x]) == Line(x, p)
  {
    HashedInOrder(map[p := x], [p]);
    assert [p][1..] == [];
  }

  lemma HashedOfTwo(p: string, x: string, q: string, y: string)
    requires Less(p, q)
    ensures Hashed(map[p := x, q := y]) == Line(x, p) + Line(y, q)
  {
    var d := map[p := x, q := y];
    LessIsAsymmetric(p, q);
    HashedInOrder(d, [p, q]);
    assert [p, q][1..] == [q] && [q][1..] == [];
    assert From(d, [q]) == Line(y, q);
  }

  /** **A path with a newline in it can be listed as two files.** */
  lemma ANewlineListsTwoFiles(x: string, y: string)
    ensures var one := "a\n" + y + "  b";
            Hashed(map[one := x]) == Hashed(map["a" := x, "b" := y]) && one !in map["a" := x, "b" := y]
  {
    var one := "a\n" + y + "  b";
    HashedOfOne(one, x);
    HashedOfTwo("a", x, "b", y);
    assert Line(x, one) == x + "  " + "a" + "\n" + y + "  " + "b" + "\n" == Line(x, "a") + Line(y, "b");
  }
}
