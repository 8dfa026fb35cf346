/**
 The `onv-run-lease` header: `<T> <id> <id> …`, T a positive number of seconds.
 Read strictly: anything else is no lease at all.
 */
module LeaseHeader {
  import opened Wrappers

  const U64_MAX: nat := 0xFFFF_FFFF_FFFF_FFFF

  /** How far `s` runs before its first space. */
  function Reach(s: string): (n: nat)
    ensures n <= |s|
    ensures ' ' !in s[..n]
    ensures n == |s| || s[n] == ' '
  {
    if s == [] || s[0] == ' ' then 0
    else
      var n := Reach(s[1..]);
      assert s[..n + 1] == [s[0]] + s[1..][..n];
      n + 1
  }

  /** `split(' ')`: what lies between the spaces, the empty pieces included. */
  function Pieces(s: string): seq<string>
    decreases |s|
  {
    var n := Reach(s);
    if n == |s| then [s] else [s[..n]] + Pieces(s[n + 1..])
  }

  function NonEmpty(ps: seq<string>): seq<string> {
    if ps == [] then []
    else if ps[0] == "" then NonEmpty(ps[1..])
    else [ps[0]] + NonEmpty(ps[1..])
  }

  predicate IsDigit(c: char) {
    '0' <= c <= '9'
  }

  predicate AllDigits(s: string) {
    forall i :: 0 <= i < |s| ==> IsDigit(s[i])
  }

  function Value(digits: string): nat
    requires AllDigits(digits)
  {
    if digits == [] then 0
    else 10 * Value(digits[..|digits| - 1]) + (digits[|digits| - 1] as nat - '0' as nat)
  }

  /** `str::parse::<u64>`: an optional `+`, then at least one digit, in range. */
  function ParseU64(w: string): Option<nat> {
    var digits := if w != [] && w[0] == '+' then w[1..] else w;
    if digits == [] || !AllDigits(digits) then None
    else if Value(digits) > U64_MAX then None
    else Some(Value(digits))
  }

  /** T in seconds, and the machines under lease. */
  function Parse(header: string): (r: Option<(nat, seq<string>)>)
    ensures r.Some? ==> r.value.0 > 0
  {
    var words := NonEmpty(Pieces(header));
    if words == [] then None
    else
      match ParseU64(words[0])
      case None => None
      case Some(t) => if t == 0 then None else Some((t, words[1..]))
  }

  // ---- What Core prints, read back ----

  function Decimal(n: nat): (s: string)
    ensures s != [] && AllDigits(s)
  {
    var d := ['0' + (n % 10) as char];
    if n < 10 then d else Decimal(n / 10) + d
  }

  function Spaced(words: seq<string>): string
    requires words != []
  {
    if |words| == 1 then words[0] else words[0] + " " + Spaced(words[1..])
  }

  lemma {:induction false} DecimalReadsBack(n: nat)
    ensures Value(Decimal(n)) == n
  {
    if n >= 10 {
      DecimalReadsBack(n / 10);
      var s := Decimal(n);
      assert s[..|s| - 1] == Decimal(n / 10);
    } else {
      assert Value([]) == 0;
    }
  }

  lemma {:induction false} SpacedSplitsBack(words: seq<string>)
    requires words != []
    requires forall w :: w in words ==> ' ' !in w
    ensures Pieces(Spaced(words)) == words
  {
    if |words| == 1 {
      ReachesTheSpace(words[0], "");
      assert words[0] + "" == words[0];
    } else {
      FirstPiece(words[0], Spaced(words[1..]));
      SpacedSplitsBack(words[1..]);
      assert words == [words[0]] + words[1..];
    }
  }

  lemma FirstPiece(w: string, rest: string)
    requires ' ' !in w
    ensures Pieces(w + " " + rest) == [w] + Pieces(rest)
  {
    var s := w + " " + rest;
    ReachesTheSpace(w, " " + rest);
    assert s == w + (" " + rest);
    assert s[..|w|] == w && s[|w| + 1..] == rest;
  }

  lemma {:induction false} ReachesTheSpace(w: string, rest: string)
    requires ' ' !in w
    requires rest == "" || rest[0] == ' '
    ensures Reach(w + rest) == |w|
  {
    if w == [] {
      assert w + rest == rest;
    } else {
      assert (w + rest)[1..] == w[1..] + rest;
      ReachesTheSpace(w[1..], rest);
    }
  }

  lemma {:induction false} NothingEmptyDropped(ps: seq<string>)
    requires "" !in ps
    ensures NonEmpty(ps) == ps
  {
    if ps != [] {
      NothingEmptyDropped(ps[1..]);
      assert ps == [ps[0]] + ps[1..];
    }
  }

  /** **A lease Core prints is the lease the agent reads.** */
  lemma HeaderReadsBack(t: nat, ids: seq<string>)
    requires 0 < t <= U64_MAX
    requires forall id :: id in ids ==> id != "" && ' ' !in id
    ensures Parse(Spaced([Decimal(t)] + ids)) == Some((t, ids))
  {
    var words := [Decimal(t)] + ids;
    DecimalReadsBack(t);
    SpacedSplitsBack(words);
    NothingEmptyDropped(words);
    assert words[1..] == ids;
    assert IsDigit(words[0][0]);
  }

  /** Every id read is a word: not empty, and no space in it. */
  lemma {:induction false} PiecesHaveNoSpace(s: string)
    ensures forall p :: p in Pieces(s) ==> ' ' !in p
    decreases |s|
  {
    var n := Reach(s);
    if n < |s| {
      PiecesHaveNoSpace(s[n + 1..]);
    } else {
      assert s[..n] == s;
    }
  }

  lemma {:induction false} NonEmptyKeeps(ps: seq<string>)
    ensures forall p :: p in NonEmpty(ps) <==> p in ps && p != ""
  {
    if ps != [] {
      NonEmptyKeeps(ps[1..]);
      assert ps == [ps[0]] + ps[1..];
    }
  }

  lemma IdsAreWords(header: string)
    requires Parse(header).Some?
    ensures forall id :: id in Parse(header).value.1 ==> id != "" && ' ' !in id
  {
    PiecesHaveNoSpace(header);
    NonEmptyKeeps(Pieces(header));
    var words := NonEmpty(Pieces(header));
    assert forall id :: id in words[1..] ==> id in words;
  }

  // ---- What any header says ----

  /** The words of a header: what lies between its spaces and is not empty. */
  function Words(s: string): seq<string> {
    NonEmpty(Pieces(s))
  }

  lemma {:induction false} PiecesOfBoth(a: string, b: string)
    ensures Pieces(a + " " + b) == Pieces(a) + Pieces(b)
    decreases |a|
  {
    var n := Reach(a);
    if n == |a| {
      assert a[..n] == a;
      FirstPiece(a, b);
    } else {
      var w, rest := a[..n], a[n + 1..];
      assert a + " " + b == w + " " + (rest + " " + b);
      FirstPiece(w, rest + " " + b);
      PiecesOfBoth(rest, b);
      assert [w] + (Pieces(rest) + Pieces(b)) == ([w] + Pieces(rest)) + Pieces(b);
    }
  }

  lemma {:induction false} NonEmptyOfBoth(a: seq<string>, b: seq<string>)
    ensures NonEmpty(a + b) == NonEmpty(a) + NonEmpty(b)
  {
    if a == [] {
      assert a + b == b;
    } else {
      assert (a + b)[1..] == a[1..] + b;
      NonEmptyOfBoth(a[1..], b);
    }
  }

  /** **What the words are**: a text cut at a space has the words of its parts,
      and one without a space is a word, unless it is empty. */
  lemma WordsOfBoth(a: string, b: string, w: string)
    requires ' ' !in w
    ensures Words(a + " " + b) == Words(a) + Words(b)
    ensures Words(w) == if w == "" then [] else [w]
  {
    PiecesOfBoth(a, b);
    NonEmptyOfBoth(Pieces(a), Pieces(b));
    ReachesTheSpace(w, "");
    assert w + "" == w && w[..|w|] == w;
    assert NonEmpty([w]) == if w == "" then NonEmpty([w][1..]) else [w] + NonEmpty([w][1..]);
  }

  /** **When a word is a number**: its digits, a `+` before them or not, and no
      more than 64 bits hold. */
  lemma WhenANumberIsRead(w: string, n: nat)
    ensures ParseU64(w) == Some(n) <==>
            exists digits :: digits != [] && AllDigits(digits) && Value(digits) == n <= U64_MAX && (w == digits || w == "+" + digits)
  {
    if ParseU64(w) == Some(n) {
      var digits := if w[0] == '+' then w[1..] else w;
      assert w[0] == '+' ==> w == "+" + w[1..];
      assert digits != [] && AllDigits(digits) && Value(digits) == n;
    }
    if digits :| digits != [] && AllDigits(digits) && Value(digits) == n <= U64_MAX && (w == digits || w == "+" + digits) {
      assert IsDigit(digits[0]) && digits[0] != '+';
      assert w != digits ==> w[1..] == digits;
    }
  }

  /** Zeros before it change no number. */
  lemma {:induction false} ZerosBefore(digits: string)
    requires AllDigits(digits)
    ensures AllDigits("0" + digits) && Value("0" + digits) == Value(digits)
  {
    var all := "0" + digits;
    assert IsDigit('0');
    if digits == [] {
      assert all[..0] == [] && Value([]) == 0;
    } else {
      ZerosBefore(digits[..|digits| - 1]);
      assert all[..|all| - 1] == "0" + digits[..|digits| - 1];
    }
  }

  /** **What any header says**: a positive number of seconds first, and then every
      other word is an id; anything else is no lease at all. */
  lemma WhatAHeaderSays(header: string, t: nat, ids: seq<string>)
    ensures Parse(header) == Some((t, ids)) <==>
            && t > 0
            && (exists w :: Words(header) == [w] + ids && ParseU64(w) == Some(t))
  {
    var words := Words(header);
    if words != [] {
      assert words == [words[0]] + words[1..];
    }
    if w :| Words(header) == [w] + ids && ParseU64(w) == Some(t) {
      assert words[0] == w && words[1..] == ids;
    }
  }
}
