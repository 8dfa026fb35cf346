/**
 The dep-info parser (`packaging/version.py:44-54`): every prerequisite of a
 make-style file, and the printing it undoes.
 */
module DepInfo {
  import opened Wrappers
  import opened PyText

  // ---- Reading ----

  /** A backslash and the newline after it are one space. */
  function Continued(text: string): string
    decreases |text|
  {
    if text == [] then []
    else if |text| >= 2 && text[0] == '\\' && text[1] == '\n' then [' '] + Continued(text[2..])
    else [text[0]] + Continued(text[1..])
  }

  /** What follows the first colon no backslash stands before, if some target
      does; `some` once one of its characters was read. */
  function AfterTarget(line: string, some: bool): Option<string>
    decreases |line|
  {
    if line == [] then None
    else if line[0] == ':' then (if some then Some(line[1..]) else None)
    else if line[0] != '\\' then AfterTarget(line[1..], true)
    else if |line| >= 2 then AfterTarget(line[2..], true)
    else None
  }

  /** How far one path runs: to white space with no backslash before it. */
  function PathEnd(s: string): (k: nat)
    ensures k <= |s|
    decreases |s|
  {
    if s == [] then 0
    else if s[0] == '\\' then (if |s| >= 2 then 2 + PathEnd(s[2..]) else 0)
    else if IsSpace(s[0]) then 0
    else 1 + PathEnd(s[1..])
  }

  function Tokens(s: string): seq<string>
    decreases |s|
  {
    if s == [] then []
    else if PathEnd(s) == 0 then Tokens(s[1..])
    else [s[..PathEnd(s)]] + Tokens(s[PathEnd(s)..])
  }

  function Unescaped(tok: string): string
    decreases |tok|
  {
    if tok == [] then []
    else if tok[0] == '\\' && |tok| >= 2 then [tok[1]] + Unescaped(tok[2..])
    else [tok[0]] + Unescaped(tok[1..])
  }

  function AllUnescaped(toks: seq<string>): (r: seq<string>)
    ensures |r| == |toks| && forall i :: 0 <= i < |r| ==> r[i] == Unescaped(toks[i])
  {
    seq(|toks|, i requires 0 <= i < |toks| => Unescaped(toks[i]))
  }

  /** The paths of one line, or none where no target ends. */
  function OfLine(line: string): seq<string> {
    var rest := AfterTarget(line, false);
    if rest.None? then [] else AllUnescaped(Tokens(rest.value))
  }

  /** What `of` makes of each of the first `n`, in order. */
  function Gathered<A, B>(of: A -> seq<B>, from: seq<A>, n: nat): seq<B>
    requires n <= |from|
  {
    if n == 0 then [] else Gathered(of, from, n - 1) + of(from[n - 1])
  }

  /** The paths of the first `n` lines. */
  function OfLines(lines: seq<string>, n: nat): seq<string>
    requires n <= |lines|
  {
    Gathered(OfLine, lines, n)
  }

  function Read(text: string): seq<string> {
    OfLines(Lines(Continued(text)), |Lines(Continued(text))|)
  }

  lemma OneLineMore(lines: seq<string>, n: nat)
    requires n < |lines|
    ensures OfLines(lines, n + 1) == OfLines(lines, n) + OfLine(lines[n])
  {
  }

  method DepPaths(text: string) returns (paths: seq<string>)
    ensures paths == Read(text)
  {
    paths := [];
    var lines := Lines(Continued(text));
    var i := 0;
    while i < |lines|
      invariant 0 <= i <= |lines|
      invariant paths == OfLines(lines, i)
    {
      var rest := AfterTarget(lines[i], false);
      OneLineMore(lines, i);
      i := i + 1;
      if rest.None? {
        continue;
      }
      var found := FindAll(rest.value);
      paths := paths + found;
    }
  }

  /** Every token of the prerequisites, unescaped. */
  method FindAll(rest: string) returns (paths: seq<string>)
    ensures paths == AllUnescaped(Tokens(rest))
  {
    paths := [];
    var toks := Tokens(rest);
    var k := 0;
    while k < |toks|
      invariant 0 <= k <= |toks|
      invariant paths == AllUnescaped(toks[..k])
    {
      paths := paths + [Unescaped(toks[k])];
      assert toks[..k + 1] == toks[..k] + [toks[k]];
      k := k + 1;
    }
    assert toks[..k] == toks;
  }

  // ---- What the reading is ----

  /** One character that is neither a backslash nor a stop, or any after a backslash. */
  predicate IsUnit(u: string, stops: char -> bool) {
    (|u| == 1 && u[0] != '\\' && !stops(u[0])) || (|u| == 2 && u[0] == '\\')
  }

  predicate AreUnits(us: seq<string>, stops: char -> bool) {
    forall i :: 0 <= i < |us| ==> IsUnit(us[i], stops)
  }

  function Concat(us: seq<string>): string {
    if us == [] then [] else us[0] + Concat(us[1..])
  }

  predicate IsColon(c: char) {
    c == ':'
  }

  lemma {:induction false} UnitsThenAColon(us: seq<string>, rest: string, some: bool)
    requires AreUnits(us, IsColon) && (some || us != [])
    ensures AfterTarget(Concat(us) + ":" + rest, some) == Some(rest)
    decreases |us|
  {
    var line := Concat(us) + ":" + rest;
    if us == [] {
      assert line == ":" + rest && line[1..] == rest;
    } else {
      UnitsThenAColon(us[1..], rest, true);
      assert line == us[0] + (Concat(us[1..]) + ":" + rest);
      assert line[|us[0]|..] == Concat(us[1..]) + ":" + rest && line[0] == us[0][0];
    }
  }

  lemma {:induction false} UnitsOfATarget(line: string, some: bool) returns (us: seq<string>)
    requires AfterTarget(line, some).Some?
    ensures AreUnits(us, IsColon) && (some || us != [])
    ensures line == Concat(us) + ":" + AfterTarget(line, some).value
    decreases |line|
  {
    if line[0] == ':' {
      us := [];
      assert line == ":" + line[1..];
    } else {
      var n := if line[0] == '\\' then 2 else 1;
      var more := UnitsOfATarget(line[n..], true);
      us := [line[..n]] + more;
      assert us[1..] == more && line == line[..n] + line[n..];
      assert Concat(us) + ":" + AfterTarget(line, some).value == line[..n] + (Concat(more) + ":" + AfterTarget(line, some).value);
    }
  }

  /** **Where a target ends**: a line gives prerequisites exactly when something
      stands before its first colon that no backslash covers, and what follows
      that colon is all of them. */
  lemma WhereATargetEnds(line: string, rest: string)
    ensures AfterTarget(line, false) == Some(rest) <==>
            exists us :: us != [] && AreUnits(us, IsColon) && line == Concat(us) + ":" + rest
  {
    if AfterTarget(line, false) == Some(rest) {
      var us := UnitsOfATarget(line, false);
    }
    if us :| us != [] && AreUnits(us, IsColon) && line == Concat(us) + ":" + rest {
      UnitsThenAColon(us, rest, false);
    }
  }

  /** A line's paths are those after its target, and none where it has none. */
  lemma WhatALineGives(line: string)
    ensures (forall us, rest :: us != [] && AreUnits(us, IsColon) ==> line != Concat(us) + ":" + rest) ==> OfLine(line) == []
    ensures forall us, rest :: us != [] && AreUnits(us, IsColon) && line == Concat(us) + ":" + rest ==>
              OfLine(line) == AllUnescaped(Tokens(rest))
  {
    if AfterTarget(line, false).Some? {
      WhereATargetEnds(line, AfterTarget(line, false).value);
    }
    forall us, rest | us != [] && AreUnits(us, IsColon) && line == Concat(us) + ":" + rest
      ensures OfLine(line) == AllUnescaped(Tokens(rest))
    {
      WhereATargetEnds(line, rest);
    }
  }

  /** Where no path starts, nor goes on: at white space, the end, or a backslash
      with nothing after it. */
  predicate EndsAPath(s: string) {
    s == [] || IsSpace(s[0]) || s == "\\"
  }

  lemma SpaceIsNoBackslash()
    ensures !IsSpace('\\')
  {
  }

  lemma {:induction false} UnitsThenAnEnd(us: seq<string>, tail: string)
    requires AreUnits(us, IsSpace) && EndsAPath(tail)
    ensures PathEnd(Concat(us) + tail) == |Concat(us)|
    decreases |us|
  {
    SpaceIsNoBackslash();
    if us == [] {
      assert Concat(us) + tail == tail;
    } else {
      UnitsThenAnEnd(us[1..], tail);
      PathEndOfOne(us[0], Concat(us[1..]) + tail);
      assert Concat(us) + tail == us[0] + (Concat(us[1..]) + tail);
    }
  }

  lemma CutAtItsEnd(s: string, k: nat)
    requires PathEnd(s) == k > 0
    ensures Tokens(s) == [s[..k]] + Tokens(s[k..])
  {
  }

  /** **What the paths of a line are**: each as far as it runs. */
  lemma WhatThePathsAre(us: seq<string>, tail: string)
    requires us != [] && AreUnits(us, IsSpace) && EndsAPath(tail)
    ensures Tokens(Concat(us) + tail) == [Concat(us)] + Tokens(tail)
  {
    var path := Concat(us);
    UnitsThenAnEnd(us, tail);
    assert IsUnit(us[0], IsSpace);
    CutAtItsEnd(path + tail, |path|);
    assert (path + tail)[..|path|] == path && (path + tail)[|path|..] == tail;
  }

  /** White space and a lone last backslash are passed over. */
  lemma WhatIsPassedOver(tail: string)
    requires tail != [] && EndsAPath(tail)
    ensures Tokens(tail) == Tokens(tail[1..])
  {
    SpaceIsNoBackslash();
    UnitsThenAnEnd([], tail);
    assert Concat([]) + tail == tail;
  }

  /** Unescaped, each unit is its last character. */
  lemma {:induction false} UnescapedUnitByUnit(us: seq<string>, stops: char -> bool)
    requires AreUnits(us, stops)
    ensures Unescaped(Concat(us)) == seq(|us|, i requires 0 <= i < |us| => assert IsUnit(us[i], stops); us[i][|us[i]| - 1])
  {
    if us != [] {
      assert IsUnit(us[0], stops);
      UnescapedUnitByUnit(us[1..], stops);
      UnescapedFirst(us[0], Concat(us[1..]));
      forall i | 0 <= i < |us[1..]| ensures us[1..][i] == us[i + 1] {
      }
    }
  }

  // ---- Printing ----

  function Escape(p: string): string {
    if p == [] then []
    else (if p[0] == ' ' || p[0] == '\\' then ['\\', p[0]] else [p[0]]) + Escape(p[1..])
  }

  function Printed(paths: seq<string>): string {
    if paths == [] then [] else " " + Escape(paths[0]) + Printed(paths[1..])
  }

  /** `target: prereq prereq`, without its newline. */
  function Rule(target: string, paths: seq<string>): string {
    target + ":" + Printed(paths)
  }

  predicate IsTarget(t: string) {
    t != [] && OneLine(t) && ':' !in t && '\\' !in t
  }

  /** Not empty, one line, and no white space but spaces. */
  predicate IsPlain(p: string) {
    p != [] && OneLine(p) && forall i :: 0 <= i < |p| && IsSpace(p[i]) ==> p[i] == ' '
  }

  lemma {:induction false} UnescapedEscape(p: string)
    ensures Unescaped(Escape(p)) == p
  {
    if p != [] {
      UnescapedEscape(p[1..]);
      var e := if p[0] == ' ' || p[0] == '\\' then ['\\', p[0]] else [p[0]];
      assert (e + Escape(p[1..]))[|e|..] == Escape(p[1..]);
    }
  }

  lemma PathEndOfOne(e: string, rest: string)
    requires (|e| == 1 && e[0] != '\\' && !IsSpace(e[0])) || (|e| == 2 && e[0] == '\\')
    ensures PathEnd(e + rest) == |e| + PathEnd(rest)
  {
    assert (e + rest)[|e|..] == rest;
  }

  lemma AnyGrouping<T>(a: seq<T>, b: seq<T>, c: seq<T>)
    ensures (a + b) + c == a + (b + c)
  {
  }

  lemma {:induction false} PathEndsAtASpace(p: string, tail: string)
    requires (forall i :: 0 <= i < |p| && IsSpace(p[i]) ==> p[i] == ' ') && (tail == [] || tail[0] == ' ')
    ensures PathEnd(Escape(p) + tail) == |Escape(p)|
  {
    if p == [] {
      assert Escape(p) + tail == tail;
    } else {
      PathEndsAtASpace(p[1..], tail);
      var e := if p[0] == ' ' || p[0] == '\\' then ['\\', p[0]] else [p[0]];
      PathEndOfOne(e, Escape(p[1..]) + tail);
      AnyGrouping(e, Escape(p[1..]), tail);
    }
  }

  lemma OneToken(e: string, tail: string)
    requires PathEnd(e + tail) == |e| > 0
    ensures Tokens(" " + e + tail) == [e] + Tokens(tail)
  {
    var rest := e + tail;
    assert rest[..|e|] == e && rest[|e|..] == tail;
    assert (" " + e + tail)[1..] == rest;
  }

  lemma {:induction false} TokensOfPrinted(paths: seq<string>)
    requires forall i :: 0 <= i < |paths| ==> IsPlain(paths[i])
    ensures AllUnescaped(Tokens(Printed(paths))) == paths
  {
    if paths != [] {
      var e, tail := Escape(paths[0]), Printed(paths[1..]);
      PathEndsAtASpace(paths[0], tail);
      OneToken(e, tail);
      TokensOfPrinted(paths[1..]);
      UnescapedEscape(paths[0]);
      OneMorePath(e, Tokens(tail), paths);
    }
  }

  lemma OneMorePath(e: string, toks: seq<string>, paths: seq<string>)
    requires paths != [] && Unescaped(e) == paths[0] && AllUnescaped(toks) == paths[1..]
    ensures AllUnescaped([e] + toks) == paths
  {
    assert paths == [paths[0]] + paths[1..];
  }

  lemma {:induction false} TargetIsPassed(t: string, rest: string, some: bool)
    requires ':' !in t && '\\' !in t && (some || t != [])
    ensures AfterTarget(t + ":" + rest, some) == Some(rest)
  {
    if t != [] {
      assert (t + ":" + rest)[1..] == t[1..] + ":" + rest;
      assert t[0] in t;
      TargetIsPassed(t[1..], rest, true);
    }
  }

  lemma {:induction false} EscapeOfBoth(a: string, b: string)
    ensures Escape(a + b) == Escape(a) + Escape(b)
  {
    if a == [] {
      assert a + b == b;
    } else {
      assert (a + b)[1..] == a[1..] + b;
      EscapeOfBoth(a[1..], b);
    }
  }

  lemma {:induction false} PrintedOfBoth(a: seq<string>, b: seq<string>)
    ensures Printed(a + b) == Printed(a) + Printed(b)
  {
    if a == [] {
      assert a + b == b;
    } else {
      assert (a + b)[1..] == a[1..] + b;
      PrintedOfBoth(a[1..], b);
    }
  }

  lemma {:induction false} EscapeIsOneLine(p: string)
    requires OneLine(p)
    ensures OneLine(Escape(p))
  {
    if p != [] {
      EscapeIsOneLine(p[1..]);
      assert !IsBreak('\\');
    }
  }

  lemma {:induction false} PrintedIsOneLine(paths: seq<string>)
    requires forall i :: 0 <= i < |paths| ==> OneLine(paths[i])
    ensures OneLine(Printed(paths))
  {
    if paths != [] {
      EscapeIsOneLine(paths[0]);
      PrintedIsOneLine(paths[1..]);
      assert !IsBreak(' ');
    }
  }

  /** The newline after one line, read with the backslash before it if it has one. */
  lemma {:induction false} ContinuedAtTheEnd(s: string)
    requires OneLine(s)
    ensures Continued(s + "\n") == if s != [] && s[|s| - 1] == '\\' then s[..|s| - 1] + " " else s + "\n"
  {
    if s == ['\\'] {
      assert (s + "\n")[2..] == [];
    } else if s != [] {
      assert (s + "\n")[1..] == s[1..] + "\n";
      ContinuedAtTheEnd(s[1..]);
    } else {
      assert (s + "\n")[1..] == [];
    }
  }

  // ---- Printed, and read back ----

  /** What a rule's newline does to its last path: a backslash it ends in is
      taken with the newline, and leaves a space. */
  function Taken(paths: seq<string>): seq<string> {
    if paths == [] || paths[|paths| - 1] == [] then paths
    else
      var last := paths[|paths| - 1];
      if last[|last| - 1] == '\\' then paths[..|paths| - 1] + [last[..|last| - 1] + " "] else paths
  }

  lemma PrintedAtTheEnd(init: seq<string>, q: string, c: char)
    ensures Printed(init + [q + [c]]) ==
            Printed(init) + (" " + Escape(q)) + if c == ' ' || c == '\\' then ['\\', c] else [c]
  {
    var last := q + [c];
    PrintedOfBoth(init, [last]);
    assert Printed([last]) == " " + Escape(last) + Printed([last][1..]);
    EscapeOfBoth(q, [c]);
    assert Escape([c]) == (if c == ' ' || c == '\\' then ['\\', c] else [c]) + Escape([c][1..]);
  }

  lemma LastOfRule(target: string, paths: seq<string>)
    requires IsTarget(target) && forall i :: 0 <= i < |paths| ==> paths[i] != []
    ensures var rule := Rule(target, paths);
            if Taken(paths) == paths then rule[|rule| - 1] != '\\'
            else rule[|rule| - 1] == '\\' && rule[..|rule| - 1] + " " == Rule(target, Taken(paths))
  {
    if paths != [] {
      var n := |paths| - 1;
      var init, last := paths[..n], paths[n];
      var q, c := last[..|last| - 1], last[|last| - 1];
      assert last == q + [c] && paths == init + [last];
      PrintedAtTheEnd(init, q, c);
      if c == '\\' {
        assert (q + " ")[|q|] != last[|q|];
        PrintedAtTheEnd(init, q, ' ');
      }
    }
  }

  lemma OfRule(target: string, paths: seq<string>)
    requires IsTarget(target)
    ensures OfLine(Rule(target, paths)) == AllUnescaped(Tokens(Printed(paths)))
  {
    TargetIsPassed(target, Printed(paths), false);
  }

  lemma OfOneLine(line: string)
    requires OneLine(line) && line != []
    ensures Lines(line) == [line] && Lines(line + "\n") == [line]
  {
    LinesReadBack([line]);
    assert Unlines([line]) == line + "\n";
    assert line[..|line|] == line;
  }

  lemma RuleIsOneLine(target: string, paths: seq<string>)
    requires IsTarget(target) && forall i :: 0 <= i < |paths| ==> OneLine(paths[i])
    ensures OneLine(Rule(target, paths)) && Rule(target, paths) != []
  {
    PrintedIsOneLine(paths);
    assert !IsBreak(':');
  }

  lemma TakenIsOneLine(paths: seq<string>)
    requires forall i :: 0 <= i < |paths| ==> OneLine(paths[i])
    ensures forall i :: 0 <= i < |Taken(paths)| ==> OneLine(Taken(paths)[i])
  {
    assert !IsBreak(' ');
  }

  lemma ReadOfOneLine(text: string, line: string)
    requires OneLine(line) && line != [] && (Continued(text) == line || Continued(text) == line + "\n")
    ensures Read(text) == OfLine(line)
  {
    OfOneLine(line);
    OfLinesOne(line);
  }

  lemma OfLinesOne(line: string)
    ensures OfLines([line], 1) == OfLine(line)
  {
    assert OfLines([line], 0) == [];
  }

  lemma ReadOfRule(target: string, paths: seq<string>)
    requires IsTarget(target) && forall i :: 0 <= i < |paths| ==> paths[i] != [] && OneLine(paths[i])
    ensures Read(Rule(target, paths) + "\n") == AllUnescaped(Tokens(Printed(Taken(paths))))
  {
    var rule, taken := Rule(target, paths), Rule(target, Taken(paths));
    TakenIsOneLine(paths);
    RuleIsOneLine(target, paths);
    RuleIsOneLine(target, Taken(paths));
    ContinuedAtTheEnd(rule);
    LastOfRule(target, paths);
    ReadOfOneLine(rule + "\n", taken);
    OfRule(target, Taken(paths));
  }

  // ---- Rule by rule ----

  /** The text ends where no rule goes on. */
  predicate EndsWhole(text: string) {
    text == [] || (text[|text| - 1] == '\n' && (|text| == 1 || text[|text| - 2] != '\\'))
  }

  /** How much of the text its next character is made of. */
  function Step(text: string): nat {
    if |text| >= 2 && text[0] == '\\' && text[1] == '\n' then 2 else 1
  }

  lemma ContinuedFirst(text: string)
    requires text != []
    ensures Continued(text) == [if Step(text) == 2 then ' ' else text[0]] + Continued(text[Step(text)..])
  {
  }

  lemma StepOfBoth(a: string, b: string)
    requires EndsWhole(a) && a != []
    ensures Step(a + b) == Step(a) <= |a| && EndsWhole(a[Step(a)..])
    ensures (a + b)[0] == a[0] && (a + b)[Step(a)..] == a[Step(a)..] + b
  {
  }

  lemma {:induction false} ContinuedOfBoth(a: string, b: string)
    requires EndsWhole(a)
    ensures Continued(a + b) == Continued(a) + Continued(b)
    decreases |a|
  {
    if a == [] {
      assert a + b == b;
    } else {
      StepOfBoth(a, b);
      var rest, first := a[Step(a)..], [if Step(a) == 2 then ' ' else a[0]];
      assert Continued(a) == first + Continued(rest) by {
        ContinuedFirst(a);
      }
      assert Continued(a + b) == first + Continued(rest + b) by {
        ContinuedFirst(a + b);
      }
      ContinuedOfBoth(rest, b);
      AnyGrouping(first, Continued(rest), Continued(b));
    }
  }

  lemma {:induction false} ContinuedEndsItsLine(a: string)
    requires EndsWhole(a)
    ensures Continued(a) == [] || Continued(a)[|Continued(a)| - 1] == '\n'
    decreases |a|
  {
    if a != [] {
      StepOfBoth(a, []);
      ContinuedEndsItsLine(a[Step(a)..]);
      ContinuedFirst(a);
      assert Step(a) == |a| ==> a[0] == '\n';
    }
  }

  lemma {:induction false} LineEndOfFirst(a: string, b: string)
    requires a != [] && a[|a| - 1] == '\n'
    ensures LineEnd(a + b) == LineEnd(a) < |a|
  {
    if !IsBreak(a[0]) {
      assert (a + b)[1..] == a[1..] + b;
      LineEndOfFirst(a[1..], b);
    }
  }

  /** Where the line after the one that ends at `k` starts. */
  function AfterBreak(t: string, k: nat): (n: nat)
    requires k < |t|
    ensures k < n <= |t|
  {
    if t[k] == '\r' && k + 1 < |t| && t[k + 1] == '\n' then k + 2 else k + 1
  }

  lemma LinesOfMore(t: string)
    requires LineEnd(t) < |t|
    ensures Lines(t) == [t[..LineEnd(t)]] + Lines(t[AfterBreak(t, LineEnd(t))..])
  {
  }

  lemma CutAfterABreak(a: string, b: string, k: nat)
    requires k < |a| && a[|a| - 1] == '\n'
    ensures AfterBreak(a + b, k) == AfterBreak(a, k)
    ensures (a + b)[..k] == a[..k] && (a + b)[AfterBreak(a, k)..] == a[AfterBreak(a, k)..] + b
    ensures a[AfterBreak(a, k)..] == [] || a[AfterBreak(a, k)..][|a| - AfterBreak(a, k) - 1] == '\n'
  {
  }

  lemma {:induction false} LinesOfBoth(a: string, b: string)
    requires a == [] || a[|a| - 1] == '\n'
    ensures Lines(a + b) == Lines(a) + Lines(b)
    decreases |a|
  {
    if a == [] {
      assert a + b == b;
    } else {
      LineEndOfFirst(a, b);
      var k := LineEnd(a);
      CutAfterABreak(a, b, k);
      var rest := a[AfterBreak(a, k)..];
      LinesOfMore(a + b);
      LinesOfMore(a);
      LinesOfBoth(rest, b);
      AnyGrouping([a[..k]], Lines(rest), Lines(b));
    }
  }

  lemma {:induction false} GatheredOfFirst<A, B>(of: A -> seq<B>, a: seq<A>, b: seq<A>, n: nat)
    requires n <= |a|
    ensures Gathered(of, a + b, n) == Gathered(of, a, n)
  {
    if n > 0 {
      GatheredOfFirst(of, a, b, n - 1);
    }
  }

  lemma {:induction false} GatheredOfBoth<A, B>(of: A -> seq<B>, a: seq<A>, b: seq<A>, n: nat)
    requires n <= |b|
    ensures Gathered(of, a + b, |a| + n) == Gathered(of, a, |a|) + Gathered(of, b, n)
  {
    if n == 0 {
      GatheredOfFirst(of, a, b, |a|);
    } else {
      GatheredOfBoth(of, a, b, n - 1);
      assert (a + b)[|a| + n - 1] == b[n - 1];
      AnyGrouping(Gathered(of, a, |a|), Gathered(of, b, n - 1), of(b[n - 1]));
    }
  }

  lemma CutIntoLines(a: string, b: string)
    requires EndsWhole(a)
    ensures Lines(Continued(a + b)) == Lines(Continued(a)) + Lines(Continued(b))
  {
    ContinuedOfBoth(a, b);
    ContinuedEndsItsLine(a);
    LinesOfBoth(Continued(a), Continued(b));
  }

  lemma OfLinesOfBoth(a: seq<string>, b: seq<string>, all: seq<string>)
    requires all == a + b
    ensures OfLines(all, |all|) == OfLines(a, |a|) + OfLines(b, |b|)
  {
    GatheredOfBoth(OfLine, a, b, |b|);
  }

  /** **Rule by rule**: what a text gives is what its parts give, in order,
      wherever it is cut after a newline with no backslash before it. */
  lemma ReadOfBoth(a: string, b: string)
    requires EndsWhole(a)
    ensures Read(a + b) == Read(a) + Read(b)
  {
    CutIntoLines(a, b);
    OfLinesOfBoth(Lines(Continued(a)), Lines(Continued(b)), Lines(Continued(a + b)));
  }

  // ---- When the same paths come back ----
  // ---- When the same paths come back ----

  /** Nothing escaped but a space or a backslash. */
  predicate EscapesOnly(s: string)
    decreases |s|
  {
    s == [] ||
    if s[0] == '\\' then |s| >= 2 && (s[1] == ' ' || s[1] == '\\') && EscapesOnly(s[2..])
    else EscapesOnly(s[1..])
  }

  lemma {:induction false} EscapeEscapesOnly(p: string, tail: string)
    requires EscapesOnly(tail)
    ensures EscapesOnly(Escape(p) + tail)
  {
    if p == [] {
      assert Escape(p) + tail == tail;
    } else {
      EscapeEscapesOnly(p[1..], tail);
      var e := if p[0] == ' ' || p[0] == '\\' then ['\\', p[0]] else [p[0]];
      assert (Escape(p) + tail)[|e|..] == Escape(p[1..]) + tail;
    }
  }

  lemma {:induction false} PrintedEscapesOnly(paths: seq<string>)
    ensures EscapesOnly(Printed(paths))
  {
    if paths != [] {
      PrintedEscapesOnly(paths[1..]);
      EscapeEscapesOnly(paths[0], Printed(paths[1..]));
      var rest := Escape(paths[0]) + Printed(paths[1..]);
      assert Printed(paths) == [' '] + rest;
      assert ([' '] + rest)[1..] == rest;
    }
  }

  predicate SpacesOnly(p: string) {
    forall i :: 0 <= i < |p| && IsSpace(p[i]) ==> p[i] == ' '
  }

  lemma {:induction false} AfterATokenEscapesOnly(s: string)
    requires EscapesOnly(s)
    ensures EscapesOnly(s[PathEnd(s)..])
    decreases |s|
  {
    var k := PathEnd(s);
    if k > 0 {
      var n := if s[0] == '\\' then 2 else 1;
      AfterATokenEscapesOnly(s[n..]);
      assert s[n..][k - n..] == s[k..];
    }
  }

  lemma OneCharMore(c: char, rest: string)
    requires (IsSpace(c) ==> c == ' ') && SpacesOnly(rest)
    ensures SpacesOnly([c] + rest)
  {
    var all := [c] + rest;
    forall i | 0 <= i < |all| && IsSpace(all[i]) ensures all[i] == ' ' {
      assert all[i] == if i == 0 then c else rest[i - 1];
    }
  }

  lemma {:induction false} ATokenHasSpacesOnly(s: string)
    requires EscapesOnly(s)
    ensures SpacesOnly(Unescaped(s[..PathEnd(s)]))
    decreases |s|
  {
    var k := PathEnd(s);
    if k > 0 {
      var n := if s[0] == '\\' then 2 else 1;
      var rest := s[n..][..k - n];
      ATokenHasSpacesOnly(s[n..]);
      assert s[..k] == s[..n] + rest;
      UnescapedFirst(s[..n], rest);
      assert IsSpace(s[n - 1]) ==> s[n - 1] == ' ' by {
        assert !IsSpace('\\');
      }
      OneCharMore(s[n - 1], Unescaped(rest));
    }
  }

  lemma UnescapedFirst(first: string, rest: string)
    requires (|first| == 1 && first[0] != '\\') || (|first| == 2 && first[0] == '\\')
    ensures Unescaped(first + rest) == [first[|first| - 1]] + Unescaped(rest)
  {
    assert (first + rest)[|first|..] == rest;
  }

  lemma {:induction false} TokensHaveSpacesOnly(s: string)
    requires EscapesOnly(s)
    ensures forall i :: 0 <= i < |Tokens(s)| ==> SpacesOnly(Unescaped(Tokens(s)[i]))
    decreases |s|
  {
    if s != [] {
      ATokenHasSpacesOnly(s);
      AfterATokenEscapesOnly(s);
      if PathEnd(s) == 0 {
        TokensHaveSpacesOnly(s[1..]);
      } else {
        TokensHaveSpacesOnly(s[PathEnd(s)..]);
      }
    }
  }

  /** **The same paths come back exactly when** they have no white space but
      spaces and the last does not end in a backslash: over every list of
      non-empty one-line paths, printed with both escaped. */
  lemma TheSamePathsComeBack(target: string, paths: seq<string>)
    requires IsTarget(target) && forall i :: 0 <= i < |paths| ==> paths[i] != [] && OneLine(paths[i])
    ensures Read(Rule(target, paths) + "\n") == paths <==>
            && (forall i :: 0 <= i < |paths| ==> SpacesOnly(paths[i]))
            && (paths != [] ==> paths[|paths| - 1][|paths[|paths| - 1]| - 1] != '\\')
  {
    var taken := Taken(paths);
    ReadOfRule(target, paths);
    PrintedEscapesOnly(taken);
    TokensHaveSpacesOnly(Printed(taken));
    if forall i :: 0 <= i < |paths| ==> SpacesOnly(paths[i]) {
      forall i | 0 <= i < |taken| ensures IsPlain(taken[i]) {
        TakenIsPlain(paths, i);
      }
      TokensOfPrinted(taken);
      LastOfTaken(paths);
    }
  }

  lemma TakenIsPlain(paths: seq<string>, i: nat)
    requires forall k :: 0 <= k < |paths| ==> IsPlain(paths[k])
    requires i < |Taken(paths)|
    ensures IsPlain(Taken(paths)[i])
  {
    assert IsSpace(' ') && !IsBreak(' ');
  }

  lemma LastOfTaken(paths: seq<string>)
    requires forall i :: 0 <= i < |paths| ==> paths[i] != []
    ensures Taken(paths) == paths <==> paths == [] || paths[|paths| - 1][|paths[|paths| - 1]| - 1] != '\\'
  {
    if paths != [] {
      var last := paths[|paths| - 1];
      assert (last[..|last| - 1] + " ")[|last| - 1] == ' ';
    }
  }

  /** Rules one after another, a newline after each. */
  function Rules(rules: seq<(string, seq<string>)>): string {
    if rules == [] then [] else Rule(rules[0].0, rules[0].1) + "\n" + Rules(rules[1..])
  }

  function AllPaths(rules: seq<(string, seq<string>)>): seq<string> {
    if rules == [] then [] else rules[0].1 + AllPaths(rules[1..])
  }

  /** A rule whose paths come back the same. */
  predicate ComesBack(rule: (string, seq<string>)) {
    && IsTarget(rule.0)
    && (forall i :: 0 <= i < |rule.1| ==> IsPlain(rule.1[i]))
    && (rule.1 != [] ==> rule.1[|rule.1| - 1][|rule.1[|rule.1| - 1]| - 1] != '\\')
  }

  lemma ARuleEndsWhole(rule: (string, seq<string>))
    requires ComesBack(rule)
    ensures EndsWhole(Rule(rule.0, rule.1) + "\n")
  {
    LastOfRule(rule.0, rule.1);
    LastOfTaken(rule.1);
  }

  /** **Every rule's paths come back**, for any number of rules. */
  lemma {:induction false} EveryRulesPathsComeBack(rules: seq<(string, seq<string>)>)
    requires forall i :: 0 <= i < |rules| ==> ComesBack(rules[i])
    ensures Read(Rules(rules)) == AllPaths(rules)
  {
    if rules != [] {
      OneRuleMore(rules[0], Rules(rules[1..]));
      EveryRulesPathsComeBack(rules[1..]);
    }
  }

  lemma OneRuleMore(rule: (string, seq<string>), rest: string)
    requires ComesBack(rule)
    ensures Read((Rule(rule.0, rule.1) + "\n") + rest) == rule.1 + Read(rest)
  {
    ARuleEndsWhole(rule);
    ReadOfBoth(Rule(rule.0, rule.1) + "\n", rest);
    TheSamePathsComeBack(rule.0, rule.1);
  }
}
