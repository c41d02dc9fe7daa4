/**
 * The two regular expressions of the reply parser, restated as scanners over characters.
 *
 * A block is `prefix\s*\{([^}]+)\}`: the prefix, optional whitespace, an opening brace, a
 * non-empty run of characters other than `}`, and the first closing brace after it. A value is
 * `"key"\s*:\s*"([^"]+)"`: the quoted key, optional whitespace, a colon, optional whitespace, and a
 * non-empty quoted run without `"`. Neither pattern can backtrack into a different match, so each
 * start position has at most one match; matches are taken leftmost first, and after a block the
 * search resumes behind its closing brace.
 */
module Patterns {
  import opened Wrappers
  import opened Text

  // ---------------------------------------------------------------------------
  // Scanning primitives
  // ---------------------------------------------------------------------------

  /** The first position at or after `j` that is not whitespace (`\s*`, greedy). */
  function SkipSpaces(t: string, j: nat): (k: nat)
    requires j <= |t|
    ensures j <= k <= |t|
    ensures forall i :: j <= i < k ==> IsSpace(t[i])
    ensures k == |t| || !IsSpace(t[k])
    decreases |t| - j
  {
    if j < |t| && IsSpace(t[j]) then SkipSpaces(t, j + 1) else j
  }

  /** The first position at or after `j` holding `c`. */
  function IndexFrom(t: string, c: char, j: nat): (r: Option<nat>)
    requires j <= |t|
    ensures r.Some? ==> j <= r.value < |t| && t[r.value] == c
    ensures r.Some? ==> forall i :: j <= i < r.value ==> t[i] != c
    ensures r.None? ==> forall i :: j <= i < |t| ==> t[i] != c
    decreases |t| - j
  {
    if j == |t| then None
    else if t[j] == c then Some(j)
    else IndexFrom(t, c, j + 1)
  }

  // ---------------------------------------------------------------------------
  // Blocks: prefix\s*\{([^}]+)\}
  // ---------------------------------------------------------------------------

  /** A match spans `t[start..close + 1]`; its captured body is `t[open + 1..close]`. */
  datatype Span = Span(start: nat, open: nat, close: nat)

  /** `s` is a match of the block pattern, spelled out position by position. */
  predicate IsBlock(t: string, prefix: string, s: Span) {
    && OccursAt(t, prefix, s.start)
    && s.start + |prefix| <= s.open
    && s.open + 1 < s.close < |t|
    && t[s.open] == '{' && t[s.close] == '}'
    && (forall k :: s.start + |prefix| <= k < s.open ==> IsSpace(t[k]))
    && (forall k :: s.open < k < s.close ==> t[k] != '}')
  }

  function Body(t: string, s: Span): (b: string)
    requires s.open < s.close <= |t|
  {
    t[s.open + 1..s.close]
  }

  /** The block pattern tried at position `i`. */
  function BlockAt(t: string, prefix: string, i: nat): (r: Option<Span>)
    requires i <= |t|
    ensures r.Some? ==> r.value.start == i && IsBlock(t, prefix, r.value)
    ensures !OccursAt(t, prefix, i) ==> r.None?
  {
    if !OccursAt(t, prefix, i) then None
    else
      var j := SkipSpaces(t, i + |prefix|);
      if j == |t| || t[j] != '{' then None
      else match IndexFrom(t, '}', j + 1)
        case None => None
        case Some(k) => if k == j + 1 then None else Some(Span(i, j, k))
  }

  /** Every match of the pattern is the one `BlockAt` finds at its start. */
  lemma BlockAtComplete(t: string, prefix: string, s: Span)
    requires IsBlock(t, prefix, s)
    ensures BlockAt(t, prefix, s.start) == Some(s)
  {
    var j := SkipSpaces(t, s.start + |prefix|);
    assert j == s.open;
    var c := IndexFrom(t, '}', j + 1);
    assert c == Some(s.close);
  }

  /** Consecutive matches, each starting at or after where the previous one ended. */
  predicate Chain(t: string, from: nat, ss: seq<Span>)
    decreases |ss|
  {
    ss == [] || (from <= ss[0].start <= ss[0].close < |t| && Chain(t, ss[0].close + 1, ss[1..]))
  }

  /** `regex.matches(in:)` from position `from` on. */
  function Blocks(t: string, prefix: string, from: nat): (r: seq<Span>)
    requires from <= |t|
    ensures forall k :: 0 <= k < |r| ==> IsBlock(t, prefix, r[k])
    ensures Chain(t, from, r)
    decreases |t| - from
  {
    if from == |t| then []
    else match BlockAt(t, prefix, from)
      case Some(s) => [s] + Blocks(t, prefix, s.close + 1)
      case None => Blocks(t, prefix, from + 1)
  }

  /** The first match is the leftmost one: no match starts earlier. */
  lemma {:induction false} BlocksLeftmost(t: string, prefix: string, from: nat, i: nat)
    requires from <= i <= |t|
    requires var r := Blocks(t, prefix, from); r == [] || i < r[0].start
    ensures BlockAt(t, prefix, i).None?
    decreases |t| - from
  {
    if from < |t| {
      BlocksHead(t, prefix, from);
      if from < i {
        BlocksAtNone(t, prefix, from);
        BlocksLeftmost(t, prefix, from + 1, i);
      }
    }
  }

  /** A match at `from` is the first of the matches from `from`. */
  lemma BlocksHead(t: string, prefix: string, from: nat)
    requires from < |t|
    ensures BlockAt(t, prefix, from).Some? ==>
      var r := Blocks(t, prefix, from); r != [] && r[0].start == from
  {
    var m := BlockAt(t, prefix, from);
    if m.Some? {
      BlocksAtMatch(t, prefix, from, m.value);
    }
  }

  /** Where the prefix never occurs, nothing matches. */
  lemma {:induction false} BlocksNeedPrefix(t: string, prefix: string, from: nat)
    requires from <= |t|
    requires !Contains(t, prefix)
    ensures Blocks(t, prefix, from) == []
    decreases |t| - from
  {
    if from < |t| {
      assert !OccursAt(t, prefix, from);
      BlocksNeedPrefix(t, prefix, from + 1);
    }
  }

  /** Positions where nothing matches can be skipped. */
  lemma {:induction false} BlocksSkip(t: string, prefix: string, from: nat, k: nat)
    requires from <= k <= |t|
    requires forall i :: from <= i < k ==> BlockAt(t, prefix, i).None?
    ensures Blocks(t, prefix, from) == Blocks(t, prefix, k)
    decreases k - from
  {
    if from < k {
      BlocksSkip(t, prefix, from + 1, k);
    }
  }

  /** One differing character rules out an occurrence. */
  lemma Mismatch(t: string, sub: string, i: nat, k: nat)
    requires k < |sub| && i + k < |t| && t[i + k] != sub[k]
    ensures !OccursAt(t, sub, i)
  {
  }

  /** `stringByReplacingMatches(…, withTemplate: "")` from position `from` on. */
  function Removed(t: string, prefix: string, from: nat): (r: string)
    requires from <= |t|
    ensures |r| <= |t| - from
    decreases |t| - from
  {
    if from == |t| then []
    else match BlockAt(t, prefix, from)
      case Some(s) => Removed(t, prefix, s.close + 1)
      case None => [t[from]] + Removed(t, prefix, from + 1)
  }

  /** The text between the spans of a chain of matches, glued together. */
  function Gaps(t: string, from: nat, ss: seq<Span>): (r: string)
    requires from <= |t| && Chain(t, from, ss)
    decreases |ss|
  {
    if ss == [] then t[from..]
    else t[from..ss[0].start] + Gaps(t, ss[0].close + 1, ss[1..])
  }

  /** Removing the matches keeps exactly the text outside them, in order. */
  lemma {:induction false} RemovedIsGaps(t: string, prefix: string, from: nat)
    requires from <= |t|
    ensures Removed(t, prefix, from) == Gaps(t, from, Blocks(t, prefix, from))
    decreases |t| - from
  {
    if from < |t| {
      RemovedIsGaps(t, prefix, Next(t, prefix, from));
      RemovedStep(t, prefix, from);
    } else {
      assert t[from..] == [];
    }
  }

  /** Where the scan resumes after position `from`: past the match there, or one further. */
  function Next(t: string, prefix: string, from: nat): (r: nat)
    requires from < |t|
    ensures from < r <= |t|
  {
    match BlockAt(t, prefix, from)
    case Some(s) => s.close + 1
    case None => from + 1
  }

  lemma RemovedStep(t: string, prefix: string, from: nat)
    requires from < |t|
    requires var n := Next(t, prefix, from); Removed(t, prefix, n) == Gaps(t, n, Blocks(t, prefix, n))
    ensures Removed(t, prefix, from) == Gaps(t, from, Blocks(t, prefix, from))
  {
    var m := BlockAt(t, prefix, from);
    if m.Some? {
      RemovedMatchStep(t, prefix, from, m.value);
    } else {
      RemovedSkipStep(t, prefix, from);
    }
  }

  lemma RemovedMatchStep(t: string, prefix: string, from: nat, s: Span)
    requires from < |t| && BlockAt(t, prefix, from) == Some(s)
    requires Removed(t, prefix, s.close + 1) == Gaps(t, s.close + 1, Blocks(t, prefix, s.close + 1))
    ensures Removed(t, prefix, from) == Gaps(t, from, Blocks(t, prefix, from))
  {
    BlocksAtMatch(t, prefix, from, s);
    RemovedAtMatch(t, prefix, from, s);
    GapsSkip(t, from, s, Blocks(t, prefix, s.close + 1));
  }

  /** A match at `from` is dropped from the text as a whole. */
  lemma RemovedAtMatch(t: string, prefix: string, from: nat, s: Span)
    requires from < |t| && BlockAt(t, prefix, from) == Some(s)
    ensures Removed(t, prefix, from) == Removed(t, prefix, s.close + 1)
  {
    var m := BlockAt(t, prefix, from);
    assert m.value == s;
  }

  /** Without a match at `from` the scan moves on by one. */
  lemma BlocksAtNone(t: string, prefix: string, from: nat)
    requires from < |t| && BlockAt(t, prefix, from).None?
    ensures Blocks(t, prefix, from) == Blocks(t, prefix, from + 1)
  {
  }

  /** A match at `from` heads the matches from `from`. */
  lemma BlocksAtMatch(t: string, prefix: string, from: nat, s: Span)
    requires from < |t| && BlockAt(t, prefix, from) == Some(s)
    ensures Blocks(t, prefix, from) == [s] + Blocks(t, prefix, s.close + 1)
  {
    var m := BlockAt(t, prefix, from);
    assert m.value == s;
    var rest := Blocks(t, prefix, s.close + 1);
    assert Blocks(t, prefix, from) == [m.value] + rest;
  }

  lemma RemovedSkipStep(t: string, prefix: string, from: nat)
    requires from < |t| && BlockAt(t, prefix, from).None?
    requires Removed(t, prefix, from + 1) == Gaps(t, from + 1, Blocks(t, prefix, from + 1))
    ensures Removed(t, prefix, from) == Gaps(t, from, Blocks(t, prefix, from))
  {
    GapsCons(t, from, Blocks(t, prefix, from + 1));
  }

  lemma {:induction false} GapsSkip(t: string, from: nat, s: Span, ss: seq<Span>)
    requires from == s.start <= s.close < |t| && Chain(t, s.close + 1, ss)
    ensures Chain(t, from, [s] + ss)
    ensures Gaps(t, from, [s] + ss) == Gaps(t, s.close + 1, ss)
  {
    var all := [s] + ss;
    assert all[0] == s && all[1..] == ss;
    assert Chain(t, from, all);
    assert t[from..s.start] == [];
    assert Gaps(t, from, all) == t[from..s.start] + Gaps(t, s.close + 1, ss);
  }

  lemma {:induction false} GapsCons(t: string, from: nat, ss: seq<Span>)
    requires from < |t| && Chain(t, from + 1, ss)
    ensures Chain(t, from, ss)
    ensures Gaps(t, from, ss) == [t[from]] + Gaps(t, from + 1, ss)
  {
    if ss == [] {
      assert t[from..] == [t[from]] + t[from + 1..];
    } else {
      var g := Gaps(t, ss[0].close + 1, ss[1..]);
      assert Gaps(t, from, ss) == t[from..ss[0].start] + g;
      assert Gaps(t, from + 1, ss) == t[from + 1..ss[0].start] + g;
      assert t[from..ss[0].start] == [t[from]] + t[from + 1..ss[0].start];
    }
  }

  /** The text is left alone exactly when nothing matches. */
  lemma RemovedUnchanged(t: string, prefix: string, from: nat)
    requires from <= |t|
    ensures Removed(t, prefix, from) == t[from..] <==> Blocks(t, prefix, from) == []
  {
    RemovedIsGaps(t, prefix, from);
    GapsShorter(t, from, Blocks(t, prefix, from));
  }

  lemma {:induction false} GapsShorter(t: string, from: nat, ss: seq<Span>)
    requires from <= |t| && Chain(t, from, ss)
    ensures |Gaps(t, from, ss)| <= |t| - from
    ensures ss != [] ==> |Gaps(t, from, ss)| < |t| - from
    decreases |ss|
  {
    if ss != [] {
      GapsShorter(t, ss[0].close + 1, ss[1..]);
    }
  }

  // ---------------------------------------------------------------------------
  // Values: "key"\s*:\s*"([^"]+)"
  // ---------------------------------------------------------------------------

  function Quoted(key: string): string {
    "\"" + key + "\""
  }

  /** The value pattern tried at position `i`. */
  function ValueAt(t: string, key: string, i: nat): (r: Option<string>)
    requires i <= |t|
    ensures r.Some? ==> |r.value| > 0 && '"' !in r.value
    ensures !OccursAt(t, Quoted(key), i) ==> r.None?
  {
    var q := Quoted(key);
    if !OccursAt(t, q, i) then None
    else
      var j := SkipSpaces(t, i + |q|);
      if j == |t| || t[j] != ':' then None
      else
        var k := SkipSpaces(t, j + 1);
        if k == |t| || t[k] != '"' then None
        else match IndexFrom(t, '"', k + 1)
          case None => None
          case Some(m) =>
            if m == k + 1 then None
            else
              var v := t[k + 1..m];
              assert forall x :: 0 <= x < |v| ==> v[x] == t[k + 1 + x];
              Some(v)
  }

  /** The leftmost position at or after `from` where the value pattern matches. */
  function FirstValueAt(t: string, key: string, from: nat): (r: Option<nat>)
    requires from <= |t|
    ensures r.Some? ==> from <= r.value <= |t| && ValueAt(t, key, r.value).Some?
    ensures r.Some? ==> forall i :: from <= i < r.value ==> ValueAt(t, key, i).None?
    ensures r.None? ==> forall i :: from <= i <= |t| ==> ValueAt(t, key, i).None?
    decreases |t| - from
  {
    if ValueAt(t, key, from).Some? then Some(from)
    else if from == |t| then None
    else FirstValueAt(t, key, from + 1)
  }

  /** `extractStringValue(from:forKey:)`: the captured value of the leftmost match. */
  function ExtractStringValue(t: string, key: string): (r: Option<string>)
    ensures r.Some? ==> |r.value| > 0 && '"' !in r.value
    ensures r.None? <==> forall i :: 0 <= i <= |t| ==> ValueAt(t, key, i).None?
    ensures forall i :: 0 <= i <= |t| && ValueAt(t, key, i).Some? ==>
      (forall j :: 0 <= j < i ==> ValueAt(t, key, j).None?) ==> r == ValueAt(t, key, i)
  {
    match FirstValueAt(t, key, 0)
    case None => None
    case Some(i) => ValueAt(t, key, i)
  }

  /** A text that starts with `"key": "v"` yields `v`. */
  lemma ExtractLeadingPair(key: string, v: string, rest: string)
    requires |v| > 0 && '"' !in v
    ensures ExtractStringValue(Quoted(key) + ": \"" + v + "\"" + rest, key) == Some(v)
  {
    var q := Quoted(key);
    var t := q + ": \"" + v + "\"" + rest;
    assert OccursAt(t, q, 0);
    assert t[|q|] == ':' && t[|q| + 1] == ' ' && t[|q| + 2] == '"';
    assert SkipSpaces(t, |q|) == |q|;
    assert SkipSpaces(t, |q| + 2) == |q| + 2;
    assert SkipSpaces(t, |q| + 1) == |q| + 2;
    var k := |q| + 2;
    assert t[k + 1..k + 1 + |v|] == v;
    assert t[k + 1 + |v|] == '"';
    assert forall x :: k + 1 <= x < k + 1 + |v| ==> t[x] == v[x - k - 1];
    assert IndexFrom(t, '"', k + 1) == Some(k + 1 + |v|);
    assert ValueAt(t, key, 0) == Some(v);
  }
}
