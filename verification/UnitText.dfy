/**
 A unit file's text (`packaging/units.py:130-145, 200-215`): its [Service]
 settings, and a line put where systemd applies it last.
 */
module UnitText {
  import opened Wrappers
  import opened PyText

  const SERVICE := "[Service]"

  predicate IsHeader(s: string) {
    |s| > 0 && s[0] == '[' && s[|s| - 1] == ']'
  }

  predicate IsSkipped(s: string) {
    s == [] || s[0] == '#' || s[0] == ';'
  }

  /** A line that is a setting, as it stands. */
  predicate IsSetting(s: string) {
    OneLine(s) && IsStripped(s) && !IsSkipped(s) && !IsHeader(s)
  }

  /** The settings of every [Service] section, from within one or not. */
  function Settings(raws: seq<string>, inside: bool): seq<string> {
    if raws == [] then []
    else
      var s := Strip(raws[0]);
      if IsSkipped(s) then Settings(raws[1..], inside)
      else if IsHeader(s) then Settings(raws[1..], s == SERVICE)
      else if inside then [s] + Settings(raws[1..], inside)
      else Settings(raws[1..], inside)
  }

  method ServiceLines(text: string) returns (out: seq<string>)
    ensures out == Settings(Lines(text), false)
  {
    out := [];
    var section: Option<string> := None;
    var raws := Lines(text);
    var i := 0;
    while i < |raws|
      invariant 0 <= i <= |raws|
      invariant out + Settings(raws[i..], section == Some(SERVICE)) == Settings(raws, false)
    {
      var line := Strip(raws[i]);
      assert raws[i..][0] == raws[i] && raws[i..][1..] == raws[i + 1..];
      i := i + 1;
      if line == [] || line[0] == '#' || line[0] == ';' {
        continue;
      }
      if IsHeader(line) {
        section := Some(line);
        continue;
      }
      if section == Some(SERVICE) {
        assert out + ([line] + Settings(raws[i..], true)) == (out + [line]) + Settings(raws[i..], true);
        out := out + [line];
      }
    }
  }

  /** `line` after the first [Service] section's last line. */
  function Inserted(raws: seq<string>, inside: bool, line: string): seq<string> {
    if raws == [] then (if inside then [line] else [])
    else
      var s := Strip(raws[0]);
      if !IsHeader(s) then [raws[0]] + Inserted(raws[1..], inside, line)
      else if inside then [line] + raws
      else [raws[0]] + Inserted(raws[1..], s == SERVICE, line)
  }

  predicate HasService(raws: seq<string>) {
    exists i :: 0 <= i < |raws| && Strip(raws[i]) == SERVICE
  }

  /** What is still to come out, from line `i` on. */
  function ToCome(raws: seq<string>, i: nat, inside: bool, done: bool, line: string): seq<string>
    requires i <= |raws|
    decreases |raws| - i
  {
    if i == |raws| then (if inside && !done then [line] else [])
    else
      var s := Strip(raws[i]);
      var ends := IsHeader(s) && inside && !done;
      (if ends then [line] else []) + [raws[i]]
      + ToCome(raws, i + 1, if IsHeader(s) then s == SERVICE else inside, done || ends, line)
  }

  lemma {:induction false} ToComeIsInserted(raws: seq<string>, i: nat, inside: bool, done: bool, line: string)
    requires i <= |raws|
    ensures ToCome(raws, i, inside, done, line) == if done then raws[i..] else Inserted(raws[i..], inside, line)
    decreases |raws| - i
  {
    if i < |raws| {
      var s := Strip(raws[i]);
      assert raws[i..] == [raws[i]] + raws[i + 1..];
      assert raws[i..][1..] == raws[i + 1..];
      ToComeIsInserted(raws, i + 1, if IsHeader(s) then s == SERVICE else inside, done || (IsHeader(s) && inside), line);
    }
  }

  /** Nothing when the text has no [Service] section: the source stops there. */
  method AppendToService(text: string, line: string) returns (r: Option<string>)
    ensures r == if HasService(Lines(text)) then Some(Unlines(Inserted(Lines(text), false, line))) else None
  {
    var out, done := Insert(Lines(text), line);
    r := if done then Some(Unlines(out)) else None;
  }

  method Insert(raws: seq<string>, line: string) returns (out: seq<string>, done: bool)
    ensures out == Inserted(raws, false, line) && (done <==> HasService(raws))
  {
    ghost var all := ToCome(raws, 0, false, false, line);
    assert all == Inserted(raws, false, line) by {
      ToComeIsInserted(raws, 0, false, false, line);
      assert raws[0..] == raws;
    }
    var inside := false;
    out, done := [], false;
    var i := 0;
    while i < |raws|
      invariant 0 <= i <= |raws|
      invariant all == Inserted(raws, false, line) == out + ToCome(raws, i, inside, done, line)
      invariant done || inside <==> HasService(raws[..i])
    {
      ServiceOneMore(raws, i);
      var put;
      put, inside, done := Put(raws[i], inside, done, line);
      out := out + put;
      i := i + 1;
    }
    assert raws[..i] == raws;
    if inside && !done {
      out := out + [line];
      done := true;
    }
  }

  /** One line passed on, and `line` before it where the section ends. */
  method Put(raw: string, inside: bool, done: bool, line: string) returns (put: seq<string>, nowInside: bool, nowDone: bool)
    ensures put == (if IsHeader(Strip(raw)) && inside && !done then [line] else []) + [raw]
    ensures nowDone == (done || (IsHeader(Strip(raw)) && inside))
    ensures nowInside == if IsHeader(Strip(raw)) then Strip(raw) == SERVICE else inside
  {
    var s := Strip(raw);
    put, nowInside, nowDone := [], inside, done;
    if IsHeader(s) {
      if inside && !done {
        put := put + [line];
        nowDone := true;
      }
      nowInside := s == SERVICE;
    }
    put := put + [raw];
  }

  lemma ServiceOneMore(raws: seq<string>, i: nat)
    requires i < |raws|
    ensures HasService(raws[..i + 1]) <==> HasService(raws[..i]) || Strip(raws[i]) == SERVICE
  {
    if HasService(raws[..i]) {
      var k :| 0 <= k < |raws[..i]| && Strip(raws[..i][k]) == SERVICE;
      assert raws[..i + 1][k] == raws[..i][k];
    }
    if HasService(raws[..i + 1]) {
      var k :| 0 <= k < |raws[..i + 1]| && Strip(raws[..i + 1][k]) == SERVICE;
      if k < i { assert raws[..i][k] == raws[..i + 1][k]; }
    }
    assert raws[..i + 1][i] == raws[i];
  }

  // ---- Appended, and read back ----

  /** The first [Service] section's settings, and those of the later ones. */
  function First(raws: seq<string>, inside: bool): seq<string> {
    if raws == [] then []
    else
      var s := Strip(raws[0]);
      if IsHeader(s) then (if inside then [] else First(raws[1..], s == SERVICE))
      else if inside && !IsSkipped(s) then [s] + First(raws[1..], inside)
      else First(raws[1..], inside)
  }

  function Later(raws: seq<string>, inside: bool): seq<string> {
    if raws == [] then []
    else
      var s := Strip(raws[0]);
      if !IsHeader(s) then Later(raws[1..], inside)
      else if inside then Settings(raws, false)
      else Later(raws[1..], s == SERVICE)
  }

  lemma {:induction false} FirstThenLater(raws: seq<string>, inside: bool)
    ensures Settings(raws, inside) == First(raws, inside) + Later(raws, inside)
  {
    if raws != [] {
      var s := Strip(raws[0]);
      FirstThenLater(raws[1..], if IsHeader(s) then s == SERVICE else inside);
    }
  }

  lemma {:induction false} InsertedIsLastOfTheFirst(raws: seq<string>, inside: bool, line: string)
    requires IsSetting(line) && (inside || HasService(raws))
    ensures Settings(Inserted(raws, inside, line), inside) == First(raws, inside) + [line] + Later(raws, inside)
  {
    StrippedStays(line);
    if raws != [] {
      var s := Strip(raws[0]);
      var rest := raws[1..];
      assert raws == [raws[0]] + rest;
      if IsHeader(s) && inside {
        assert ([line] + raws)[1..] == raws;
        assert Settings([line] + raws, true) == [line] + Settings(raws, true);
      } else {
        var next := if IsHeader(s) then s == SERVICE else inside;
        if !next {
          var i :| 0 <= i < |raws| && Strip(raws[i]) == SERVICE;
          assert rest[i - 1] == raws[i];
        }
        InsertedIsLastOfTheFirst(rest, next, line);
        assert ([raws[0]] + Inserted(rest, next, line))[1..] == Inserted(rest, next, line);
      }
    }
  }

  lemma {:induction false} InsertedIsLines(raws: seq<string>, inside: bool, line: string)
    requires OneLine(line) && forall i :: 0 <= i < |raws| ==> OneLine(raws[i])
    ensures forall i :: 0 <= i < |Inserted(raws, inside, line)| ==> OneLine(Inserted(raws, inside, line)[i])
  {
    if raws != [] {
      var s := Strip(raws[0]);
      InsertedIsLines(raws[1..], if IsHeader(s) then s == SERVICE else inside, line);
    }
  }

  predicate ServicesOnce(raws: seq<string>) {
    forall i, j :: 0 <= i < j < |raws| && Strip(raws[i]) == SERVICE ==> Strip(raws[j]) != SERVICE
  }

  /** **A setting appended is read back as the first section's last**, and, in a
      text with one [Service] section, as the last of all. */
  lemma AppendedIsReadBack(text: string, line: string)
    requires IsSetting(line) && HasService(Lines(text))
    ensures var after := Unlines(Inserted(Lines(text), false, line));
            && Settings(Lines(text), false) == First(Lines(text), false) + Later(Lines(text), false)
            && Settings(Lines(after), false) == First(Lines(text), false) + [line] + Later(Lines(text), false)
            && (ServicesOnce(Lines(text)) ==> Settings(Lines(after), false) == Settings(Lines(text), false) + [line])
  {
    var raws := Lines(text);
    FirstThenLater(raws, false);
    InsertedIsLines(raws, false, line);
    LinesReadBack(Inserted(raws, false, line));
    InsertedIsLastOfTheFirst(raws, false, line);
    if ServicesOnce(raws) {
      OnceIsFirst(raws, false);
    }
  }

  lemma {:induction false} NoServiceNoSettings(raws: seq<string>)
    requires !HasService(raws)
    ensures Settings(raws, false) == []
  {
    if raws != [] {
      NoServiceNoSettings(raws[1..]);
    }
  }

  lemma {:induction false} OnceIsFirst(raws: seq<string>, inside: bool)
    requires ServicesOnce(raws) && (inside ==> !HasService(raws))
    ensures Later(raws, inside) == []
  {
    if raws != [] {
      var s := Strip(raws[0]);
      if IsHeader(s) && inside {
        NoServiceNoSettings(raws);
      } else {
        OnceIsFirst(raws[1..], if IsHeader(s) then s == SERVICE else inside);
      }
    }
  }

  // ---- Which lines are settings ----

  /** The last header of these lines, comments aside, is [Service]. */
  ghost predicate EndsInService(raws: seq<string>) {
    exists h :: 0 <= h < |raws| && Strip(raws[h]) == SERVICE
                && forall i :: h < i < |raws| ==> !IsHeader(Strip(raws[i]))
  }

  lemma EndsInServiceOneMore(raws: seq<string>, raw: string)
    ensures EndsInService(raws + [raw]) <==>
            if IsHeader(Strip(raw)) then Strip(raw) == SERVICE else EndsInService(raws)
  {
    var all := raws + [raw];
    if EndsInService(raws) && !IsHeader(Strip(raw)) {
      var h :| 0 <= h < |raws| && Strip(raws[h]) == SERVICE && forall i :: h < i < |raws| ==> !IsHeader(Strip(raws[i]));
      assert Strip(all[h]) == SERVICE && forall i :: h < i < |all| ==> !IsHeader(Strip(all[i]));
    }
    if Strip(raw) == SERVICE {
      assert Strip(all[|raws|]) == SERVICE;
    }
    if EndsInService(all) {
      var h :| 0 <= h < |all| && Strip(all[h]) == SERVICE && forall i :: h < i < |all| ==> !IsHeader(Strip(all[i]));
      if h < |raws| {
        assert all[|raws|] == raw;
        assert Strip(raws[h]) == SERVICE && forall i :: h < i < |raws| ==> !IsHeader(Strip(raws[i])) by {
          assert forall i :: 0 <= i < |raws| ==> all[i] == raws[i];
        }
      }
    }
  }

  lemma {:induction false} SettingsOfBoth(a: seq<string>, b: seq<string>, inside: bool)
    ensures Settings(a + b, inside) == Settings(a, inside) + Settings(b, Inside(a, inside))
  {
    if a == [] {
      assert a + b == b;
    } else {
      assert (a + b)[1..] == a[1..] + b;
      SettingsOfBoth(a[1..], b, if IsHeader(Strip(a[0])) then Strip(a[0]) == SERVICE else inside);
    }
  }

  /** In a [Service] section after these lines. */
  function Inside(raws: seq<string>, inside: bool): bool {
    if raws == [] then inside
    else Inside(raws[1..], if IsHeader(Strip(raws[0])) then Strip(raws[0]) == SERVICE else inside)
  }

  lemma {:induction false} InsideOneMore(raws: seq<string>, raw: string, inside: bool)
    ensures Inside(raws + [raw], inside) == if IsHeader(Strip(raw)) then Strip(raw) == SERVICE else Inside(raws, inside)
  {
    if raws == [] {
      assert [raw][1..] == [] && raws + [raw] == [raw];
    } else {
      assert (raws + [raw])[1..] == raws[1..] + [raw];
      InsideOneMore(raws[1..], raw, if IsHeader(Strip(raws[0])) then Strip(raws[0]) == SERVICE else inside);
    }
  }

  lemma {:induction false} InsideIsTheLastHeader(raws: seq<string>)
    ensures Inside(raws, false) <==> EndsInService(raws)
    decreases |raws|
  {
    if raws != [] {
      var init, raw := raws[..|raws| - 1], raws[|raws| - 1];
      assert raws == init + [raw];
      InsideIsTheLastHeader(init);
      InsideOneMore(init, raw, false);
      EndsInServiceOneMore(init, raw);
    }
  }

  /** **Which lines are settings**: each, stripped, that is no comment, no header
      and not empty, where the last header before it is [Service]. */
  lemma WhichLinesAreSettings(raws: seq<string>, raw: string)
    ensures Settings([], false) == []
    ensures var s := Strip(raw);
            Settings(raws + [raw], false) ==
              Settings(raws, false) +
              if s != "" && s[0] != '#' && s[0] != ';' && !(s[0] == '[' && s[|s| - 1] == ']') && EndsInService(raws) then [s] else []
  {
    SettingsOfBoth(raws, [raw], false);
    InsideIsTheLastHeader(raws);
    assert [raw][1..] == [];
    assert Settings([raw][1..], false) == Settings([raw][1..], true) == [];
  }
}
