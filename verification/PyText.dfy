/** Python's `str.strip`, `str.splitlines` and their reverse, on text. */
module PyText {
  import opened LeaseFile

  /** `str.isspace`: Unicode white space and the four information separators. */
  predicate IsSpace(c: char) {
    IsWhite(c) || '\U{1C}' <= c <= '\U{1F}'
  }

  predicate IsBreak(c: char) {
    || '\n' <= c <= '\r' || '\U{1C}' <= c <= '\U{1E}' || c == '\U{85}' || c == '\U{2028}' || c == '\U{2029}'
  }

  function Strip(s: string): (r: string)
    ensures IsStripped(r)
  {
    if s == [] then s
    else if IsSpace(s[0]) then Strip(s[1..])
    else if IsSpace(s[|s| - 1]) then Strip(s[..|s| - 1])
    else s
  }

  /** Nothing to strip. */
  predicate IsStripped(s: string) {
    s != [] ==> !IsSpace(s[0]) && !IsSpace(s[|s| - 1])
  }

  lemma StrippedStays(s: string)
    requires IsStripped(s)
    ensures Strip(s) == s
  {
  }

  predicate OneLine(s: string) {
    forall i :: 0 <= i < |s| ==> !IsBreak(s[i])
  }

  /** Where the first line ends. */
  function LineEnd(t: string): (k: nat)
    ensures k <= |t| && OneLine(t[..k]) && (k < |t| ==> IsBreak(t[k]))
  {
    if t == [] || IsBreak(t[0]) then 0
    else
      var k := LineEnd(t[1..]);
      assert t[..k + 1] == [t[0]] + t[1..][..k];
      k + 1
  }

  /** `str.splitlines`: a carriage return and the newline after it are one break. */
  function Lines(t: string): (r: seq<string>)
    ensures forall i :: 0 <= i < |r| ==> OneLine(r[i])
    decreases |t|
  {
    if t == [] then []
    else
      var k := LineEnd(t);
      if k == |t| then [t[..k]]
      else
        var n := if t[k] == '\r' && k + 1 < |t| && t[k + 1] == '\n' then k + 2 else k + 1;
        [t[..k]] + Lines(t[n..])
  }

  /** Every line and a newline after it. */
  function Unlines(lines: seq<string>): string {
    if lines == [] then [] else lines[0] + "\n" + Unlines(lines[1..])
  }

  lemma {:induction false} FirstLine(l: string, rest: string)
    requires OneLine(l)
    ensures LineEnd(l + "\n" + rest) == |l|
  {
    if l != [] {
      FirstLine(l[1..], rest);
      assert (l + "\n" + rest)[1..] == l[1..] + "\n" + rest;
    }
  }

  /** **Written line by line, read back line by line.** */
  lemma {:induction false} LinesReadBack(lines: seq<string>)
    requires forall i :: 0 <= i < |lines| ==> OneLine(lines[i])
    ensures Lines(Unlines(lines)) == lines
  {
    if lines != [] {
      var l, rest := lines[0], Unlines(lines[1..]);
      var t := l + "\n" + rest;
      FirstLine(l, rest);
      assert t[..|l|] == l && t[|l| + 1..] == rest && t[|l|] == '\n';
      LinesReadBack(lines[1..]);
    }
  }
}
