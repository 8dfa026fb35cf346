/**
 systemd reads a unit's lines before it reads its settings
 (systemd.syntax(7)): comments go, and a line that ends in a backslash is
 concatenated with the next, a space in the backslash's place. The checker
 (`packaging/units.py:130-142`) reads each line by itself.
 */
module UnitSyntax {
  import opened Wrappers
  import opened PyText
  import opened UnitText
  import opened UnitCheck
  import opened UnitApplied

  predicate IsComment(raw: string) {
    var s := Strip(raw);
    s != [] && (s[0] == '#' || s[0] == ';')
  }

  /** The line goes on in the next one. */
  predicate GoesOn(raw: string) {
    raw != [] && raw[|raw| - 1] == '\\' && !IsComment(raw)
  }

  /** The lines systemd takes the settings from. */
  function Joined(raws: seq<string>): seq<string> {
    if raws == [] then []
    else
      var rest := Joined(raws[1..]);
      if IsComment(raws[0]) then rest
      else if !GoesOn(raws[0]) then [raws[0]] + rest
      else
        var head := raws[0][..|raws[0]| - 1] + " ";
        if rest == [] then [head] else [head + rest[0]] + rest[1..]
  }

  function NoComments(raws: seq<string>): seq<string> {
    if raws == [] then []
    else if IsComment(raws[0]) then NoComments(raws[1..])
    else [raws[0]] + NoComments(raws[1..])
  }

  ghost predicate NoneGoesOn(raws: seq<string>) {
    forall i :: 0 <= i < |raws| ==> !GoesOn(raws[i])
  }

  /** **How lines are joined**: a comment is passed over, even inside a continued
      line; any other that does not end in a backslash stands as it is; and one
      that does takes the next line, and none after that. */
  lemma HowLinesAreJoined(raw: string, next: string, raws: seq<string>)
    ensures "#" <= Strip(raw) || ";" <= Strip(raw) ==> Joined([raw] + raws) == Joined(raws)
    ensures !("#" <= Strip(raw)) && !(";" <= Strip(raw)) && (raw == "" || raw[|raw| - 1] != '\\') ==> Joined([raw] + raws) == [raw] + Joined(raws)
    ensures GoesOn(raw) && IsComment(next) ==> Joined([raw, next] + raws) == Joined([raw] + raws)
    ensures GoesOn(raw) && !IsComment(next) && !GoesOn(next) ==>
              Joined([raw, next] + raws) == [raw[..|raw| - 1] + " " + next] + Joined(raws)
  {
    var s := Strip(raw);
    assert "#" <= s <==> s != [] && s[0] == '#';
    assert ";" <= s <==> s != [] && s[0] == ';';
    assert ([raw] + raws)[1..] == raws;
    assert ([raw, next] + raws)[1..] == [next] + raws && ([next] + raws)[1..] == raws;
  }

  lemma {:induction false} JoinedIsShorter(raws: seq<string>)
    ensures |Joined(raws)| <= |NoComments(raws)|
  {
    if raws != [] {
      JoinedIsShorter(raws[1..]);
    }
  }

  /** **When systemd's lines are the checker's**: exactly when no line but a
      comment ends in a backslash. */
  lemma {:induction false} JoinedIsTheLines(raws: seq<string>)
    ensures Joined(raws) == NoComments(raws) <==> NoneGoesOn(raws)
  {
    if raws != [] {
      var rest := raws[1..];
      JoinedIsTheLines(rest);
      JoinedIsShorter(rest);
      assert NoneGoesOn(raws) <==> !GoesOn(raws[0]) && NoneGoesOn(rest) by {
        assert forall i :: 0 <= i < |rest| ==> rest[i] == raws[i + 1];
        assert forall i :: 1 <= i < |raws| ==> raws[i] == rest[i - 1];
      }
      if GoesOn(raws[0]) {
        assert NoComments(raws)[0] == raws[0];
        NotItself(raws[0], Joined(rest));
      } else if !IsComment(raws[0]) {
        assert Joined(raws)[1..] == Joined(rest) && NoComments(raws)[1..] == NoComments(rest);
      }
    }
  }

  lemma NotItself(raw: string, rest: seq<string>)
    requires GoesOn(raw)
    ensures raw[..|raw| - 1] + " " != raw
    ensures rest != [] ==> raw[..|raw| - 1] + " " + rest[0] != raw
  {
    assert (raw[..|raw| - 1] + " ")[|raw| - 1] == ' ';
    assert rest != [] ==> (raw[..|raw| - 1] + " " + rest[0])[|raw| - 1] == ' ';
  }

  lemma {:induction false} CommentsSetNothing(raws: seq<string>, inside: bool)
    ensures Settings(NoComments(raws), inside) == Settings(raws, inside)
  {
    if raws != [] {
      var s := Strip(raws[0]);
      CommentsSetNothing(raws[1..], if !IsSkipped(s) && IsHeader(s) then s == SERVICE else inside);
    }
  }

  /** **What systemd applies is the table's**, of a text the checker accepts, where
      no line but a comment ends in a backslash. */
  lemma WhatSystemdAppliesIsTheTables(w: Want, raws: seq<string>)
    requires Holds(w, Settings(raws, false)) && NoneGoesOn(raws)
    ensures var applied := Settings(Joined(raws), false);
            && (forall i :: 0 <= i < |w.require| ==>
                  var key, value := KeyOf(w.require[i]), ValueOf(w.require[i]);
                  && Wins(applied, |applied|, key) == Some(value)
                  && Merges(applied, |applied|, key) == if value == [] then [] else [value])
            && forall key :: !Requires(w, key) && (key !in w.free || IsForbidden(w, key)) ==>
                 Wins(applied, |applied|, key) == None && Merges(applied, |applied|, key) == []
  {
    JoinedIsTheLines(raws);
    CommentsSetNothing(raws, false);
    WhatIsAppliedIsTheTables(w, Settings(raws, false));
  }

  // ---- A line swallowed ----

  const FREE := "T=5\\"
  const NEEDED := "N=1"

  lemma AKey(key: string, value: string, line: string)
    requires line == key + "=" + value && '=' !in key && key != [] && value != []
    requires !IsSpace(key[0]) && !IsSpace(key[|key| - 1]) && !IsSpace(value[|value| - 1])
    ensures KeyOf(line) == key && Strip(line) == line
  {
    CutAtTheEquals(key, value);
    StrippedStays(key);
    assert line[0] == key[0] && line[|line| - 1] == value[|value| - 1];
    StrippedStays(line);
  }

  lemma TheKeys()
    ensures KeyOf(FREE) == "T" && KeyOf(NEEDED) == "N" && KeyOf("T=5 N=1") == "T"
    ensures Strip(FREE) == FREE && Strip(NEEDED) == NEEDED && Strip("T=5 N=1") == "T=5 N=1" && Strip(SERVICE) == SERVICE
  {
    AKey("T", "5\\", FREE);
    AKey("N", "1", NEEDED);
    AKey("T", "5 N=1", "T=5 N=1");
    StrippedStays(SERVICE);
  }

  lemma OneKeyOfTwo(a: string, b: string)
    requires KeyOf(a) != KeyOf(b)
    ensures Held([a, b], KeyOf(a)) == [a] && Held([a, b], KeyOf(b)) == [b]
  {
    assert HeldBy([a, b], KeyOf(a), 0) == HeldBy([a, b], KeyOf(b), 0) == [];
    assert HeldBy([a, b], KeyOf(a), 1) == [a] && HeldBy([a, b], KeyOf(b), 1) == [];
  }

  lemma WhatTheCheckerReads()
    ensures Settings([SERVICE, FREE, NEEDED], false) == [FREE, NEEDED]
  {
    TheKeys();
    var raws := [SERVICE, FREE, NEEDED];
    assert raws[1..] == [FREE, NEEDED] && [FREE, NEEDED][1..] == [NEEDED] && [NEEDED][1..] == [];
    assert Settings([NEEDED], true) == [NEEDED];
    assert Settings([FREE, NEEDED], true) == [FREE, NEEDED];
  }

  lemma WhatSystemdReads()
    ensures Joined([SERVICE, FREE, NEEDED]) == [SERVICE, "T=5 N=1"]
    ensures GoesOn(FREE)
  {
    TheKeys();
    var raws := [SERVICE, FREE, NEEDED];
    assert raws[1..] == [FREE, NEEDED] && [FREE, NEEDED][1..] == [NEEDED] && [NEEDED][1..] == [];
    assert FREE[..|FREE| - 1] + " " + NEEDED == "T=5 N=1";
    assert Joined([NEEDED]) == [NEEDED];
    assert Joined([FREE, NEEDED]) == ["T=5 N=1"];
  }

  lemma WhatSystemdApplies()
    ensures Settings([SERVICE, "T=5 N=1"], false) == ["T=5 N=1"]
    ensures Wins(["T=5 N=1"], 1, KeyOf(NEEDED)) == None
  {
    TheKeys();
    assert [SERVICE, "T=5 N=1"][1..] == ["T=5 N=1"] && ["T=5 N=1"][1..] == [];
    assert Settings(["T=5 N=1"], true) == ["T=5 N=1"];
    assert Wins(["T=5 N=1"], 0, KeyOf(NEEDED)) == None;
  }

  /** **A free key's line swallows a required one**: the checker accepts the text,
      and systemd applies no line of the required key. */
  lemma ABackslashSwallowsARequiredLine() returns (w: Want, raws: seq<string>)
    ensures w.require == [NEEDED] && w.free == ["T"] && raws == [SERVICE, FREE, NEEDED]
    ensures Holds(w, Settings(raws, false)) && !NoneGoesOn(raws)
    ensures var applied := Settings(Joined(raws), false);
            Wins(applied, |applied|, KeyOf(NEEDED)) == None
  {
    w := Want([NEEDED], ["T"], []);
    raws := [SERVICE, FREE, NEEDED];
    WhatTheCheckerReads();
    WhatSystemdReads();
    WhatSystemdApplies();
    assert GoesOn(raws[1]);
    TheKeys();
    OneKeyOfTwo(FREE, NEEDED);
    assert KeyOf(w.require[0]) == "N";
  }
}
