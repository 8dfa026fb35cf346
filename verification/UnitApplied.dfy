/**
 What systemd applies of a unit that holds its row (`packaging/units.py:11-24`):
 a later line wins, an empty one resets, list lines merge. And why a second
 line of a required key never passes, whatever its value.
 */
module UnitApplied {
  import opened Wrappers
  import opened PyText
  import opened UnitText
  import opened UnitCheck

  /** A key whose last line wins, over the first `n` lines. */
  function Wins(lines: seq<string>, n: nat, key: string): Option<string>
    requires n <= |lines|
  {
    if n == 0 then None
    else if KeyOf(lines[n - 1]) == key then Some(ValueOf(lines[n - 1]))
    else Wins(lines, n - 1, key)
  }

  /** A key whose lines make a list, an empty one emptying it. */
  function Merges(lines: seq<string>, n: nat, key: string): seq<string>
    requires n <= |lines|
  {
    if n == 0 then []
    else if KeyOf(lines[n - 1]) != key then Merges(lines, n - 1, key)
    else if ValueOf(lines[n - 1]) == [] then []
    else Merges(lines, n - 1, key) + [ValueOf(lines[n - 1])]
  }

  lemma {:induction false} AppliedOfNone(lines: seq<string>, n: nat, key: string)
    requires n <= |lines| && HeldBy(lines, key, n) == []
    ensures Wins(lines, n, key) == None && Merges(lines, n, key) == []
  {
    if n > 0 {
      AppliedOfNone(lines, n - 1, key);
    }
  }

  lemma {:induction false} AppliedOfOne(lines: seq<string>, n: nat, key: string, line: string)
    requires n <= |lines| && HeldBy(lines, key, n) == [line]
    ensures Wins(lines, n, key) == Some(ValueOf(line))
    ensures Merges(lines, n, key) == if ValueOf(line) == [] then [] else [ValueOf(line)]
  {
    var held := HeldBy(lines, key, n);
    if KeyOf(lines[n - 1]) == key {
      assert held[|held| - 1] == lines[n - 1];
      AppliedOfNone(lines, n - 1, key);
    } else {
      AppliedOfOne(lines, n - 1, key, line);
    }
  }

  /** **What is applied is the table's**: of a unit that holds its row, every
      required key's value, won or merged, is the one line's of the table; a key
      neither required nor free has none, and nor has a forbidden one. */
  lemma WhatIsAppliedIsTheTables(w: Want, lines: seq<string>)
    requires Holds(w, lines)
    ensures forall i :: 0 <= i < |w.require| ==>
              var key := KeyOf(w.require[i]);
              && Wins(lines, |lines|, key) == Some(ValueOf(w.require[i]))
              && Merges(lines, |lines|, key) == if ValueOf(w.require[i]) == [] then [] else [ValueOf(w.require[i])]
    ensures forall key :: !Requires(w, key) && (key !in w.free || IsForbidden(w, key)) ==>
              Wins(lines, |lines|, key) == None && Merges(lines, |lines|, key) == []
  {
    forall i | 0 <= i < |w.require|
      ensures var key := KeyOf(w.require[i]);
              && Wins(lines, |lines|, key) == Some(ValueOf(w.require[i]))
              && Merges(lines, |lines|, key) == if ValueOf(w.require[i]) == [] then [] else [ValueOf(w.require[i])]
    {
      AppliedOfOne(lines, |lines|, KeyOf(w.require[i]), w.require[i]);
    }
    forall key | !Requires(w, key) && (key !in w.free || IsForbidden(w, key))
      ensures Wins(lines, |lines|, key) == None && Merges(lines, |lines|, key) == []
    {
      HeldCounts(lines, key, |lines|);
      AppliedOfNone(lines, |lines|, key);
    }
  }

  // ---- A second line ----

  lemma {:induction false} HeldOfBoth(a: seq<string>, b: seq<string>, key: string, n: nat)
    requires n <= |b|
    ensures HeldBy(a + b, key, |a| + n) == Held(a, key) + HeldBy(b, key, n)
  {
    if n == 0 {
      HeldOfFirst(a, b, key, |a|);
    } else {
      HeldOfBoth(a, b, key, n - 1);
      assert (a + b)[|a| + n - 1] == b[n - 1];
    }
  }

  lemma {:induction false} HeldOfFirst(a: seq<string>, b: seq<string>, key: string, n: nat)
    requires n <= |a|
    ensures HeldBy(a + b, key, n) == HeldBy(a, key, n)
  {
    if n > 0 {
      HeldOfFirst(a, b, key, n - 1);
      assert (a + b)[n - 1] == a[n - 1];
    }
  }

  lemma OneHeld(line: string)
    ensures Held([line], KeyOf(line)) == [line]
  {
    assert HeldBy([line], KeyOf(line), 0) == [];
  }

  lemma HeldOfAll(a: seq<string>, b: seq<string>, key: string)
    ensures Held(a + b, key) == Held(a, key) + Held(b, key)
  {
    HeldOfBoth(a, b, key, |b|);
  }

  lemma OneMoreHeld(first: seq<string>, line: string, later: seq<string>, key: string)
    requires Held([line], key) == [line]
    ensures |Held(first + [line] + later, key)| == |Held(first + later, key)| + 1
  {
    HeldOfAll(first + [line], later, key);
    HeldOfAll(first, [line], key);
    HeldOfAll(first, later, key);
  }

  /** **A second line of a required key is refused**, appended to its section,
      whatever it says. */
  lemma ASecondLineIsRefused(w: Want, text: string, line: string)
    requires HasService(Lines(text)) && Holds(w, Settings(Lines(text), false))
    requires IsSetting(line) && Requires(w, KeyOf(line))
    ensures !Holds(w, Settings(Lines(Unlines(Inserted(Lines(text), false, line))), false))
  {
    AppendedIsReadBack(text, line);
    var i :| 0 <= i < |w.require| && KeyOf(w.require[i]) == KeyOf(line);
    assert Held(Settings(Lines(text), false), KeyOf(w.require[i])) == [w.require[i]];
    OneHeld(line);
    OneMoreHeld(First(Lines(text), false), line, Later(Lines(text), false), KeyOf(line));
  }

  lemma ALineOfAKey(key: string, value: string)
    requires key != [] && key[0] !in "#;[" && '=' !in key && OneLine(key) && IsStripped(key)
    requires OneLine(value) && (value != [] ==> !IsSpace(value[|value| - 1]))
    ensures IsSetting(key + "=" + value) && KeyOf(key + "=" + value) == key
  {
    var line := key + "=" + value;
    CutAtTheEquals(key, value);
    StrippedStays(key);
    assert !IsSpace('=') && !IsBreak('=');
    forall i | 0 <= i < |line| ensures !IsBreak(line[i]) {
      assert line[i] == if i < |key| then key[i] else if i == |key| then '=' else value[i - |key| - 1];
    }
  }

  /** Any one-line value, the empty one that resets among them. */
  lemma AnyValueIsRefused(w: Want, text: string, key: string, value: string)
    requires HasService(Lines(text)) && Holds(w, Settings(Lines(text), false)) && Requires(w, key)
    requires key != [] && key[0] !in "#;[" && '=' !in key && OneLine(key) && IsStripped(key)
    requires OneLine(value) && (value != [] ==> !IsSpace(value[|value| - 1]))
    ensures !Holds(w, Settings(Lines(Unlines(Inserted(Lines(text), false, key + "=" + value))), false))
  {
    ALineOfAKey(key, value);
    ASecondLineIsRefused(w, text, key + "=" + value);
  }
}
