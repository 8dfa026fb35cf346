/**
 The unit checker (`packaging/units.py:12-31, 130-175`): what no complaint
 means, against what systemd applies.
 */
module UnitCheck {
  import opened Wrappers
  import opened PyText
  import opened UnitText

  /** One unit's row of the table. */
  datatype Want = Want(require: seq<string>, free: seq<string>, forbidPrefix: seq<string>)

  datatype Complaint =
    | Lacks(line: string)
    | Repeats(key: string, n: nat)
    | HoldsOther(line: string, wanted: string)
    | Forbidden(line: string)
    | UnknownKey(line: string)
    | FreeRepeats(key: string, n: nat)

  // ---- Keys and values ----

  /** What stands before the first `=`, or the whole line. */
  function Before(line: string): string {
    if line == [] || line[0] == '=' then [] else [line[0]] + Before(line[1..])
  }

  function After(line: string): string {
    if line == [] then [] else if line[0] == '=' then line[1..] else After(line[1..])
  }

  function KeyOf(line: string): string {
    Strip(Before(line))
  }

  function ValueOf(line: string): string {
    Strip(After(line))
  }

  /** The first `n` lines of this key, in order. */
  function HeldBy(lines: seq<string>, key: string, n: nat): seq<string>
    requires n <= |lines|
  {
    if n == 0 then []
    else HeldBy(lines, key, n - 1) + if KeyOf(lines[n - 1]) == key then [lines[n - 1]] else []
  }

  function Held(lines: seq<string>, key: string): seq<string> {
    HeldBy(lines, key, |lines|)
  }

  ghost predicate Requires(w: Want, key: string) {
    exists i :: 0 <= i < |w.require| && KeyOf(w.require[i]) == key
  }

  predicate Starts(s: string, p: string) {
    |p| <= |s| && s[..|p|] == p
  }

  predicate IsForbidden(w: Want, key: string) {
    exists i :: 0 <= i < |w.forbidPrefix| && Starts(key, w.forbidPrefix[i])
  }

  // ---- What is complained of ----

  /** Of a required line's key. */
  function OfRequired(key: string, wanted: string, held: seq<string>): Option<Complaint> {
    if held == [wanted] then None
    else if held == [] then Some(Lacks(wanted))
    else if |held| > 1 then Some(Repeats(key, |held|))
    else Some(HoldsOther(held[0], wanted))
  }

  /** Of the lines of one required line's key. */
  function OfWanted(wanted: string, lines: seq<string>): Option<Complaint> {
    OfRequired(KeyOf(wanted), wanted, Held(lines, KeyOf(wanted)))
  }

  ghost predicate IsComplaint(w: Want, lines: seq<string>, c: Complaint) {
    || (exists i :: 0 <= i < |w.require| && OfWanted(w.require[i], lines) == Some(c))
    || SaidOfLines(w, lines, |lines|, c)
    || SaidOfFree(w, lines, |w.free|, c)
  }

  ghost predicate SaidOfLines(w: Want, lines: seq<string>, n: nat, c: Complaint)
    requires n <= |lines|
  {
    exists i :: 0 <= i < n && OfLine(w, lines[i]) == Some(c)
  }

  ghost predicate SaidOfFree(w: Want, lines: seq<string>, n: nat, c: Complaint)
    requires n <= |w.free|
  {
    exists i :: 0 <= i < n && OfFree(w.free[i], lines) == Some(c)
  }

  /** Of a line whose key the table does not require. */
  ghost function OfLine(w: Want, line: string): Option<Complaint> {
    if Requires(w, KeyOf(line)) then None
    else if IsForbidden(w, KeyOf(line)) then Some(Forbidden(line))
    else if KeyOf(line) !in w.free then Some(UnknownKey(line))
    else None
  }

  function OfFree(key: string, lines: seq<string>): Option<Complaint> {
    if |Held(lines, key)| > 1 then Some(FreeRepeats(key, |Held(lines, key)|)) else None
  }

  /** No key twice in the table's required lines. */
  ghost predicate TableIsOnce(w: Want) {
    forall i, j :: 0 <= i < j < |w.require| ==> KeyOf(w.require[i]) != KeyOf(w.require[j])
  }

  function Group(lines: seq<string>, n: nat, key: string): Option<seq<string>>
    requires n <= |lines|
  {
    if HeldBy(lines, key, n) == [] then None else Some(HeldBy(lines, key, n))
  }

  /** `required` holds the first `n` lines, by key. */
  ghost predicate GroupsOf(lines: seq<string>, n: nat, required: map<string, seq<string>>)
    requires n <= |lines|
  {
    forall k :: Lookup(required, k) == Group(lines, n, k)
  }

  lemma GroupsOneMore(lines: seq<string>, n: nat, required: map<string, seq<string>>, key: string, held: seq<string>)
    requires n < |lines| && GroupsOf(lines, n, required) && key == KeyOf(lines[n])
    requires held == (if key in required then required[key] else []) + [lines[n]]
    ensures GroupsOf(lines, n + 1, required[key := held])
  {
    var after, m := required[key := held], n + 1;
    forall k ensures Lookup(after, k) == Group(lines, m, k) {
      assert Lookup(required, k) == Group(lines, n, k);
      if k != key {
        assert HeldBy(lines, k, m) == HeldBy(lines, k, n);
      }
    }
  }

  /** The required lines by key, in the order first met. */
  method Grouped(require: seq<string>) returns (required: map<string, seq<string>>, keys: seq<string>)
    ensures GroupsOf(require, |require|, required)
    ensures forall k :: k in keys <==> k in required
  {
    required, keys := map[], [];
    var i := 0;
    while i < |require|
      invariant 0 <= i <= |require|
      invariant GroupsOf(require, i, required)
      invariant forall k :: k in keys <==> k in required
    {
      var key := KeyOf(require[i]);
      var held := (if key in required then required[key] else []) + [require[i]];
      GroupsOneMore(require, i, required, key, held);
      if key !in required {
        keys := keys + [key];
      }
      required := required[key := held];
      i := i + 1;
    }
  }

  // ---- The checker ----

  ghost predicate SaidOfTable(groups: map<string, seq<string>>, keys: seq<string>, lines: seq<string>, n: nat, c: Complaint)
    requires n <= |keys| && forall i :: 0 <= i < n ==> keys[i] in groups && |groups[keys[i]]| == 1
  {
    exists i :: 0 <= i < n && OfRequired(keys[i], groups[keys[i]][0], Held(lines, keys[i])) == Some(c)
  }

  /** Every required key's lines, exactly the one wanted; or the key the table
      requires twice, at which the source stops. */
  method CheckRequired(groups: map<string, seq<string>>, keys: seq<string>, lines: seq<string>)
    returns (r: Result<seq<Complaint>, string>)
    requires forall k :: k in keys ==> k in groups && groups[k] != []
    ensures r.Ok? <==> forall k :: k in keys ==> |groups[k]| == 1
    ensures r.Ok? ==> forall c :: c in r.value <==> SaidOfTable(groups, keys, lines, |keys|, c)
  {
    var bad: seq<Complaint> := [];
    var i := 0;
    while i < |keys|
      invariant 0 <= i <= |keys|
      invariant forall j :: 0 <= j < i ==> |groups[keys[j]]| == 1
      invariant forall c :: c in bad <==> SaidOfTable(groups, keys, lines, i, c)
    {
      var key := keys[i];
      var wanted, held := groups[key], Held(lines, key);
      if |wanted| != 1 {
        return Err(key);
      }
      ghost var was := bad;
      var said := OfRequired(key, wanted[0], held);
      if held != wanted {
        if held == [] {
          bad := bad + [Lacks(wanted[0])];
        } else if |held| > 1 {
          bad := bad + [Repeats(key, |held|)];
        } else {
          bad := bad + [HoldsOther(held[0], wanted[0])];
        }
      }
      assert bad == was + if said.Some? then [said.value] else [];
      i := i + 1;
    }
    r := Ok(bad);
  }

  /** Every other line's key free, and not forbidden by prefix. */
  method CheckLines(w: Want, required: set<string>, lines: seq<string>) returns (bad: seq<Complaint>)
    requires forall k :: k in required <==> Requires(w, k)
    ensures forall c :: c in bad <==> SaidOfLines(w, lines, |lines|, c)
  {
    bad := [];
    var i := 0;
    while i < |lines|
      invariant 0 <= i <= |lines|
      invariant forall c :: c in bad <==> SaidOfLines(w, lines, i, c)
    {
      var line := lines[i];
      var key := KeyOf(line);
      ghost var was := bad;
      i := i + 1;
      if key !in required {
        if IsForbidden(w, key) {
          bad := bad + [Forbidden(line)];
        } else if key !in w.free {
          bad := bad + [UnknownKey(line)];
        }
      }
      assert bad == was + if OfLine(w, line).Some? then [OfLine(w, line).value] else [];
    }
  }

  /** No free key twice; each asked once, however often the table names it. */
  method CheckFree(w: Want, lines: seq<string>) returns (bad: seq<Complaint>)
    ensures forall c :: c in bad <==> SaidOfFree(w, lines, |w.free|, c)
  {
    bad := [];
    var i := 0;
    while i < |w.free|
      invariant 0 <= i <= |w.free|
      invariant forall c :: c in bad <==> SaidOfFree(w, lines, i, c)
    {
      var key := w.free[i];
      i := i + 1;
      if key in w.free[..i - 1] {
        continue;
      }
      ghost var was := bad;
      var n := |Held(lines, key)|;
      if n > 1 {
        bad := bad + [FreeRepeats(key, n)];
      }
      assert bad == was + if OfFree(key, lines).Some? then [OfFree(key, lines).value] else [];
    }
  }

  // ---- What is read of a line, and what is said ----

  lemma HeldOneMore(lines: seq<string>, key: string, n: nat)
    requires n < |lines|
    ensures HeldBy(lines, key, n + 1) == HeldBy(lines, key, n) + if KeyOf(lines[n]) == key then [lines[n]] else []
  {
  }

  lemma {:induction false} CutAtTheEquals(key: string, value: string)
    requires '=' !in key
    ensures Before(key + "=" + value) == key && After(key + "=" + value) == value
    ensures Before(key) == key && After(key) == ""
  {
    if key == [] {
      assert ("" + "=" + value)[1..] == value;
    } else {
      assert (key + "=" + value)[1..] == key[1..] + "=" + value;
      CutAtTheEquals(key[1..], value);
    }
  }

  /** **Key and value**: what stands either side of a line's first `=`, without the
      white space about each; a line with none is all key. */
  lemma KeyAndValue(key: string, value: string)
    requires '=' !in key
    ensures KeyOf(key + "=" + value) == Strip(key) && ValueOf(key + "=" + value) == Strip(value)
    ensures KeyOf(key) == Strip(key) && ValueOf(key) == ""
  {
    CutAtTheEquals(key, value);
    assert Strip("") == "";
  }

  lemma LinesOneMore(lines: seq<string>, key: string, n: nat)
    requires n < |lines|
    ensures (set i: nat | i < n + 1 && KeyOf(lines[i]) == key) ==
            (set i: nat | i < n && KeyOf(lines[i]) == key) + if KeyOf(lines[n]) == key then {n} else {}
  {
  }

  /** How many lines a key has. */
  lemma {:induction false} HeldAreCounted(lines: seq<string>, key: string, n: nat)
    requires n <= |lines|
    ensures |HeldBy(lines, key, n)| == |set i: nat | i < n && KeyOf(lines[i]) == key|
  {
    if n > 0 {
      HeldAreCounted(lines, key, n - 1);
      HeldOneMore(lines, key, n - 1);
      LinesOneMore(lines, key, n - 1);
      assert n - 1 + 1 == n;
    }
  }

  lemma {:induction false} HeldAreItsLines(lines: seq<string>, key: string, n: nat, i: nat)
    requires i < n <= |lines| && KeyOf(lines[i]) == key
    ensures lines[i] in HeldBy(lines, key, n)
  {
    HeldOneMore(lines, key, n - 1);
    if i < n - 1 {
      HeldAreItsLines(lines, key, n - 1, i);
    } else {
      assert HeldBy(lines, key, n)[|HeldBy(lines, key, n)| - 1] == lines[i];
    }
  }

  /** **What is said of a required line**: that the unit lacks it, exactly when no
      line has its key; that it holds some number, when more than one has; and
      that it holds another, when one has and is another. */
  lemma WhatIsSaidOfARequiredLine(wanted: string, lines: seq<string>)
    ensures var its := set i: nat | i < |lines| && KeyOf(lines[i]) == KeyOf(wanted);
            && (OfWanted(wanted, lines) == Some(Lacks(wanted)) <==> |its| == 0)
            && (|its| > 1 ==> OfWanted(wanted, lines) == Some(Repeats(KeyOf(wanted), |its|)))
            && (|its| == 1 ==> forall i :: i in its ==>
                  OfWanted(wanted, lines) == if lines[i] == wanted then None else Some(HoldsOther(lines[i], wanted)))
  {
    HeldAreCounted(lines, KeyOf(wanted), |lines|);
    var its := set i: nat | i < |lines| && KeyOf(lines[i]) == KeyOf(wanted);
    var held := Held(lines, KeyOf(wanted));
    if |its| == 1 {
      assert held == [held[0]];
      forall i | i in its ensures lines[i] == held[0] {
        HeldAreItsLines(lines, KeyOf(wanted), |lines|, i);
      }
    }
  }

  /** **What is said of a line the table does not require**: forbidden, exactly when
      its key goes on from one of the prefixes; else not known, when not free. */
  lemma WhatIsSaidOfALine(w: Want, line: string)
    requires forall i :: 0 <= i < |w.require| ==> KeyOf(w.require[i]) != KeyOf(line)
    ensures OfLine(w, line) == Some(Forbidden(line)) <==> exists p :: p in w.forbidPrefix && p <= KeyOf(line)
    ensures OfLine(w, line) == Some(UnknownKey(line)) <==>
            KeyOf(line) !in w.free && forall p :: p in w.forbidPrefix ==> !(p <= KeyOf(line))
  {
    var key := KeyOf(line);
    assert !Requires(w, key);
    if IsForbidden(w, key) {
      var i :| 0 <= i < |w.forbidPrefix| && Starts(key, w.forbidPrefix[i]);
      assert w.forbidPrefix[i] in w.forbidPrefix && w.forbidPrefix[i] <= key;
    }
    if p :| p in w.forbidPrefix && p <= key {
      var i :| 0 <= i < |w.forbidPrefix| && w.forbidPrefix[i] == p;
      assert key[..|p|] == p;
      assert Starts(key, w.forbidPrefix[i]);
    }
  }

  // ---- The table's groups ----

  lemma {:induction false} HeldNone(lines: seq<string>, key: string, n: nat)
    requires n <= |lines|
    ensures HeldBy(lines, key, n) == [] <==> forall i :: 0 <= i < n ==> KeyOf(lines[i]) != key
  {
    if n > 0 {
      HeldNone(lines, key, n - 1);
    }
  }

  lemma HeldOnce(lines: seq<string>, key: string, i: nat)
    requires i < |lines| && KeyOf(lines[i]) == key
    requires forall j :: 0 <= j < |lines| && j != i ==> KeyOf(lines[j]) != key
    ensures Held(lines, key) == [lines[i]]
  {
    HeldAreCounted(lines, key, |lines|);
    HeldAreItsLines(lines, key, |lines|, i);
    assert (set j: nat | j < |lines| && KeyOf(lines[j]) == key) == {i};
  }

  ghost predicate AtMostOnce(lines: seq<string>, key: string, n: nat)
    requires n <= |lines|
  {
    forall i, j :: 0 <= i < j < n && KeyOf(lines[i]) == key ==> KeyOf(lines[j]) != key
  }

  lemma AtMostOnceOneMore(lines: seq<string>, key: string, n: nat)
    requires 0 < n <= |lines|
    ensures AtMostOnce(lines, key, n) <==>
            && AtMostOnce(lines, key, n - 1)
            && (KeyOf(lines[n - 1]) == key ==> forall i :: 0 <= i < n - 1 ==> KeyOf(lines[i]) != key)
  {
  }

  lemma {:induction false} HeldAtMostOnce(lines: seq<string>, key: string, n: nat)
    requires n <= |lines|
    ensures |HeldBy(lines, key, n)| <= 1 <==> AtMostOnce(lines, key, n)
  {
    if n > 0 {
      var before := HeldBy(lines, key, n - 1);
      HeldAtMostOnce(lines, key, n - 1);
      HeldNone(lines, key, n - 1);
      AtMostOnceOneMore(lines, key, n);
      if KeyOf(lines[n - 1]) == key {
        assert HeldBy(lines, key, n) == before + [lines[n - 1]];
        assert |before| == 0 <==> before == [];
      } else {
        assert HeldBy(lines, key, n) == before;
      }
    }
  }

  lemma HeldCounts(lines: seq<string>, key: string, n: nat)
    requires n <= |lines|
    ensures HeldBy(lines, key, n) == [] <==> forall i :: 0 <= i < n ==> KeyOf(lines[i]) != key
    ensures |HeldBy(lines, key, n)| <= 1 <==> AtMostOnce(lines, key, n)
  {
    HeldNone(lines, key, n);
    HeldAtMostOnce(lines, key, n);
  }

  lemma GroupSays(w: Want, groups: map<string, seq<string>>, k: string)
    requires GroupsOf(w.require, |w.require|, groups)
    ensures k in groups <==> Requires(w, k)
    ensures k in groups ==> groups[k] == Held(w.require, k) && |groups[k]| >= 1
  {
    assert Lookup(groups, k) == Group(w.require, |w.require|, k);
    HeldCounts(w.require, k, |w.require|);
  }

  lemma GroupsOnce(w: Want, groups: map<string, seq<string>>)
    requires GroupsOf(w.require, |w.require|, groups)
    ensures (forall k :: k in groups ==> |groups[k]| == 1) <==> TableIsOnce(w)
  {
    var n := |w.require|;
    forall k | k in groups && TableIsOnce(w) ensures |groups[k]| == 1 {
      GroupSays(w, groups, k);
      HeldCounts(w.require, k, n);
    }
    forall i, j | 0 <= i < j < n && KeyOf(w.require[i]) == KeyOf(w.require[j])
      ensures exists k :: k in groups && |groups[k]| != 1
    {
      var k := KeyOf(w.require[i]);
      GroupSays(w, groups, k);
      HeldCounts(w.require, k, n);
      assert k in groups && |groups[k]| != 1;
    }
  }

  /** What was said key by key is what there is to say of each required line. */
  lemma TableSays(w: Want, groups: map<string, seq<string>>, keys: seq<string>, lines: seq<string>, c: Complaint)
    requires GroupsOf(w.require, |w.require|, groups) && (forall k :: k in keys <==> k in groups)
    requires TableIsOnce(w) && forall k :: k in groups ==> |groups[k]| == 1
    ensures SaidOfTable(groups, keys, lines, |keys|, c) <==>
            exists i :: 0 <= i < |w.require| && OfWanted(w.require[i], lines) == Some(c)
  {
    forall i | 0 <= i < |w.require|
      ensures KeyOf(w.require[i]) in groups && groups[KeyOf(w.require[i])] == [w.require[i]]
    {
      GroupSays(w, groups, KeyOf(w.require[i]));
      HeldOnce(w.require, KeyOf(w.require[i]), i);
    }
    if SaidOfTable(groups, keys, lines, |keys|, c) {
      var j :| 0 <= j < |keys| && OfRequired(keys[j], groups[keys[j]][0], Held(lines, keys[j])) == Some(c);
      GroupSays(w, groups, keys[j]);
      var i :| 0 <= i < |w.require| && KeyOf(w.require[i]) == keys[j];
      assert OfWanted(w.require[i], lines) == Some(c);
    }
    if i :| 0 <= i < |w.require| && OfWanted(w.require[i], lines) == Some(c) {
      var j :| 0 <= j < |keys| && keys[j] == KeyOf(w.require[i]);
      assert OfRequired(keys[j], groups[keys[j]][0], Held(lines, keys[j])) == Some(c);
    }
  }

  /** The checker: the key the table itself requires twice, or every complaint
      there is to make of the unit's lines, and no other. */
  method CheckUnit(w: Want, lines: seq<string>) returns (r: Result<seq<Complaint>, string>)
    ensures r.Ok? <==> TableIsOnce(w)
    ensures r.Ok? ==> forall c :: c in r.value <==> IsComplaint(w, lines, c)
  {
    var groups, keys := Grouped(w.require);
    forall k ensures k in groups <==> Requires(w, k) {
      GroupSays(w, groups, k);
    }
    forall k | k in keys ensures k in groups && groups[k] != [] {
      GroupSays(w, groups, k);
    }
    GroupsOnce(w, groups);
    var first := CheckRequired(groups, keys, lines);
    if first.Err? {
      return first;
    }
    var second := CheckLines(w, groups.Keys, lines);
    var third := CheckFree(w, lines);
    forall c ensures c in first.value + second + third <==> IsComplaint(w, lines, c) {
      TableSays(w, groups, keys, lines, c);
    }
    r := Ok(first.value + second + third);
  }

  // ---- What no complaint means ----

  /** The unit holds its row: each required line, alone of its key; every other
      key free, not forbidden, and at most once. */
  ghost predicate Holds(w: Want, lines: seq<string>) {
    && (forall i :: 0 <= i < |w.require| ==> Held(lines, KeyOf(w.require[i])) == [w.require[i]])
    && (forall i :: 0 <= i < |lines| ==>
          var key := KeyOf(lines[i]);
          Requires(w, key) || (key in w.free && !IsForbidden(w, key) && |Held(lines, key)| == 1))
  }

  /** **Sound and complete**: nothing is complained of exactly when the unit
      holds its row. */
  lemma NoComplaintIsHolding(w: Want, lines: seq<string>)
    ensures (forall c :: !IsComplaint(w, lines, c)) <==> Holds(w, lines)
  {
    if forall c :: !IsComplaint(w, lines, c) {
      forall i | 0 <= i < |w.require| ensures Held(lines, KeyOf(w.require[i])) == [w.require[i]] {
        var said := OfWanted(w.require[i], lines);
        if said.Some? {
          assert IsComplaint(w, lines, said.value);
        }
      }
      forall i | 0 <= i < |lines|
        ensures var key := KeyOf(lines[i]);
                Requires(w, key) || (key in w.free && !IsForbidden(w, key) && |Held(lines, key)| == 1)
      {
        NoComplaintOfALine(w, lines, i);
      }
    }
    if Holds(w, lines) {
      forall c ensures !IsComplaint(w, lines, c) {
        HoldingIsNoComplaint(w, lines, c);
      }
    }
  }

  lemma NoComplaintOfALine(w: Want, lines: seq<string>, i: nat)
    requires i < |lines| && forall c :: !IsComplaint(w, lines, c)
    ensures var key := KeyOf(lines[i]);
            Requires(w, key) || (key in w.free && !IsForbidden(w, key) && |Held(lines, key)| == 1)
  {
    var key := KeyOf(lines[i]);
    var said := OfLine(w, lines[i]);
    if said.Some? {
      assert SaidOfLines(w, lines, |lines|, said.value);
      assert IsComplaint(w, lines, said.value);
    }
    if !Requires(w, key) {
      var j :| 0 <= j < |w.free| && w.free[j] == key;
      var twice := OfFree(key, lines);
      if twice.Some? {
        assert OfFree(w.free[j], lines) == Some(twice.value);
        assert SaidOfFree(w, lines, |w.free|, twice.value);
        assert IsComplaint(w, lines, twice.value);
      }
      HeldCounts(lines, key, |lines|);
    }
  }

  lemma HoldingIsNoComplaint(w: Want, lines: seq<string>, c: Complaint)
    requires Holds(w, lines)
    ensures !IsComplaint(w, lines, c)
  {
    forall j | 0 <= j < |w.free| ensures OfFree(w.free[j], lines).None? {
      var key := w.free[j];
      HeldCounts(lines, key, |lines|);
      if Held(lines, key) != [] {
        var i :| 0 <= i < |lines| && KeyOf(lines[i]) == key;
        if Requires(w, key) {
          var k :| 0 <= k < |w.require| && KeyOf(w.require[k]) == key;
          assert Held(lines, KeyOf(w.require[k])) == [w.require[k]];
        }
      }
    }
  }
}
