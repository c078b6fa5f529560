/** The token pipeline of the file summation: split on runs of `[\n,]`, parse each token, drop NaN. */
module Tokens {
  import opened Numbers
  import opened Parse

  predicate IsSeparator(c: char)
  {
    c == '\n' || c == ','
  }

  predicate NoSeparator(t: string)
  {
    forall i :: 0 <= i < |t| ==> !IsSeparator(t[i])
  }

  predicate OnlySeparators(t: string)
  {
    forall i :: 0 <= i < |t| ==> IsSeparator(t[i])
  }

  /** Index of the first separator in s, or |s|. */
  function TokenEnd(s: string): (i: nat)
    ensures i <= |s| && NoSeparator(s[..i])
    ensures i < |s| ==> IsSeparator(s[i])
  {
    if s == [] || IsSeparator(s[0]) then 0
    else
      var m := TokenEnd(s[1..]);
      assert s[..1 + m] == [s[0]] + s[1..][..m];
      1 + m
  }

  /** Index just past the run of separators that starts at i. */
  function RunEnd(s: string, i: nat): (j: nat)
    requires i <= |s|
    ensures i <= j <= |s| && OnlySeparators(s[i..j])
    ensures j < |s| ==> !IsSeparator(s[j])
    decreases |s| - i
  {
    if i == |s| || !IsSeparator(s[i]) then i
    else
      var j := RunEnd(s, i + 1);
      assert s[i..j] == [s[i]] + s[i + 1..j];
      j
  }

  /** `s.split(/[\n,]+/)`: the text between maximal runs of separators, in order. */
  function Split(s: string): (ts: seq<string>)
    ensures |ts| >= 1
    decreases |s|
  {
    var i := TokenEnd(s);
    if i == |s| then [s] else [s[..i]] + Split(s[RunEnd(s, i)..])
  }

  /** The maximal runs of separators of s, in order. */
  function SeparatorRuns(s: string): (rs: seq<string>)
    decreases |s|
  {
    var i := TokenEnd(s);
    if i == |s| then [] else [s[i..RunEnd(s, i)]] + SeparatorRuns(s[RunEnd(s, i)..])
  }

  /** Tokens interleaved with the separator runs between them. */
  function Weave(ts: seq<string>, rs: seq<string>): string
    requires |ts| == |rs| + 1
  {
    if rs == [] then ts[0] else ts[0] + rs[0] + Weave(ts[1..], rs[1..])
  }

  /**
   * A decomposition of a text as the split sees it: separator-free tokens, non-empty
   * separator runs between them, and only the first and last token may be empty.
   */
  predicate IsSplitting(s: string, ts: seq<string>, rs: seq<string>)
  {
    && |ts| == |rs| + 1
    && Weave(ts, rs) == s
    && (forall k :: 0 <= k < |ts| ==> NoSeparator(ts[k]))
    && (forall k :: 0 <= k < |rs| ==> rs[k] != [] && OnlySeparators(rs[k]))
    && (forall k :: 0 < k < |ts| - 1 ==> ts[k] != [])
  }

  /** A run of separators that ends at j (end of text or a non-separator) is the run RunEnd finds. */
  lemma RunEndAt(s: string, i: nat, j: nat)
    requires i <= j <= |s| && OnlySeparators(s[i..j])
    requires j < |s| ==> !IsSeparator(s[j])
    ensures RunEnd(s, i) == j
  {
  }

  /** A token and a run of separators in front of a decomposition give a decomposition. */
  lemma SplittingCons(t0: string, r0: string, rest: string, ts: seq<string>, rs: seq<string>)
    requires IsSplitting(rest, ts, rs)
    requires NoSeparator(t0) && r0 != [] && OnlySeparators(r0)
    requires |ts| > 1 ==> ts[0] != []
    ensures IsSplitting(t0 + r0 + rest, [t0] + ts, [r0] + rs)
  {
    var ts', rs' := [t0] + ts, [r0] + rs;
    assert ts'[1..] == ts && rs'[1..] == rs;
    forall k | 0 < k < |ts'| ensures ts'[k] == ts[k - 1] {
    }
    forall k | 0 < k < |rs'| ensures rs'[k] == rs[k - 1] {
    }
  }

  /** Split and SeparatorRuns together decompose s. */
  lemma {:induction false} SplitDecomposes(s: string)
    ensures IsSplitting(s, Split(s), SeparatorRuns(s))
    decreases |s|
  {
    var i := TokenEnd(s);
    if i < |s| {
      var j := RunEnd(s, i);
      var rest := s[j..];
      SplitDecomposes(rest);
      if |Split(rest)| > 1 {
        // the token after the run starts with a non-separator
        assert rest != [] && !IsSeparator(rest[0]);
        assert TokenEnd(rest) > 0;
      }
      assert s == s[..i] + s[i..j] + rest;
      SplittingCons(s[..i], s[i..j], rest, Split(rest), SeparatorRuns(rest));
    } else {
      assert s[..i] == s;
    }
  }

  /** A separator-free prefix that ends at i (end of text or a separator) is the one TokenEnd finds. */
  lemma TokenEndAt(s: string, i: nat)
    requires i <= |s| && NoSeparator(s[..i])
    requires i < |s| ==> IsSeparator(s[i])
    ensures TokenEnd(s) == i
  {
    var e := TokenEnd(s);
    assert forall j :: 0 <= j < i ==> s[..i][j] == s[j];
    assert forall j :: 0 <= j < e ==> s[..e][j] == s[j];
  }

  /** One step of the split: a token, a whole run of separators, then the rest. */
  lemma SplitStep(t0: string, r0: string, rest: string)
    requires NoSeparator(t0) && r0 != [] && OnlySeparators(r0)
    requires rest == [] || !IsSeparator(rest[0])
    ensures Split(t0 + r0 + rest) == [t0] + Split(rest)
    ensures SeparatorRuns(t0 + r0 + rest) == [r0] + SeparatorRuns(rest)
  {
    var s := t0 + r0 + rest;
    var i, j := |t0|, |t0| + |r0|;
    assert s[..i] == t0 && s[i] == r0[0];
    TokenEndAt(s, i);
    assert s[i..j] == r0 && s[j..] == rest;
    assert j < |s| ==> s[j] == rest[0];
    RunEndAt(s, i, j);
  }

  /** Peeling the first token and run off a decomposition leaves a decomposition of the rest. */
  lemma SplittingTail(s: string, ts: seq<string>, rs: seq<string>)
    requires IsSplitting(s, ts, rs) && rs != []
    ensures s == ts[0] + rs[0] + Weave(ts[1..], rs[1..])
    ensures Weave(ts[1..], rs[1..]) == [] || !IsSeparator(Weave(ts[1..], rs[1..])[0])
    ensures IsSplitting(Weave(ts[1..], rs[1..]), ts[1..], rs[1..])
  {
    var rest := Weave(ts[1..], rs[1..]);
    if |ts| > 2 {
      assert ts[1] != [];
      assert rest == ts[1] + rs[1] + Weave(ts[2..], rs[2..]) by { assert ts[1..][1..] == ts[2..]; }
      assert rest[0] == ts[1][0];
    } else {
      assert rest == ts[1];
    }
    forall k | 0 < k < |ts[1..]| - 1 ensures ts[1..][k] != [] {
      assert ts[1..][k] == ts[k + 1];
    }
  }

  /** The split is the only such decomposition: no other tokenisation fits the rule. */
  lemma {:induction false} SplitUnique(s: string, ts: seq<string>, rs: seq<string>)
    requires IsSplitting(s, ts, rs)
    ensures ts == Split(s) && rs == SeparatorRuns(s)
    decreases |rs|
  {
    if rs == [] {
      assert s == ts[0] && s[..|s|] == s;
      TokenEndAt(s, |s|);
    } else {
      var rest := Weave(ts[1..], rs[1..]);
      SplittingTail(s, ts, rs);
      SplitStep(ts[0], rs[0], rest);
      SplitUnique(rest, ts[1..], rs[1..]);
      assert ts == [ts[0]] + ts[1..];
      assert rs == [rs[0]] + rs[1..];
    }
  }

  /** `.map(parseFloat)`. */
  function ParseAll(ts: seq<string>): (ns: seq<Num>)
    ensures |ns| == |ts|
    ensures forall k :: 0 <= k < |ts| ==> ns[k] == ParseFloat(ts[k])
  {
    if ts == [] then [] else [ParseFloat(ts[0])] + ParseAll(ts[1..])
  }

  /** `.filter((num) => !isNaN(num))`. */
  function KeepNumbers(ns: seq<Num>): (ks: seq<Num>)
    ensures |ks| <= |ns|
    ensures forall i :: 0 <= i < |ks| ==> !IsNaN(ks[i])
  {
    if ns == [] then []
    else if IsNaN(ns[0]) then KeepNumbers(ns[1..])
    else [ns[0]] + KeepNumbers(ns[1..])
  }

  /** The filter keeps exactly the values for which `isNaN` is false: neither NaN nor `undefined`. */
  lemma {:induction false} KeepNumbersMembers(ns: seq<Num>, x: Num)
    ensures x in KeepNumbers(ns) <==> x in ns && !IsNaN(x)
  {
    if ns != [] {
      KeepNumbersMembers(ns[1..], x);
      assert ns == [ns[0]] + ns[1..];
    }
  }

  /** A list in which `isNaN` holds for no value passes the filter unchanged. */
  lemma {:induction false} KeepNumbersKeepsAll(ns: seq<Num>)
    requires forall i :: 0 <= i < |ns| ==> !IsNaN(ns[i])
    ensures KeepNumbers(ns) == ns
  {
    if ns != [] {
      KeepNumbersKeepsAll(ns[1..]);
      assert ns == [ns[0]] + ns[1..];
    }
  }

  /** Some token of ts parses to x. */
  predicate SomeTokenParsesTo(ts: seq<string>, x: Num)
  {
    exists k :: 0 <= k < |ts| && ParseFloat(ts[k]) == x
  }

  /** After parsing and filtering, a value survives exactly when it is some token's parse and not NaN. */
  lemma KeepParsedMembers(ts: seq<string>, x: Num)
    ensures x in KeepNumbers(ParseAll(ts)) <==> !x.NaN? && SomeTokenParsesTo(ts, x)
  {
    var ns := ParseAll(ts);
    KeepNumbersMembers(ns, x);
    if x in ns {
      var k :| 0 <= k < |ns| && ns[k] == x;
      assert ParseFloat(ts[k]) == x;
    }
    if exists k :: 0 <= k < |ts| && ParseFloat(ts[k]) == x {
      var k :| 0 <= k < |ts| && ParseFloat(ts[k]) == x;
      assert ns[k] == x;
    }
  }

  /** The filter keeps the surviving numbers in their original order. */
  lemma {:induction false} KeepNumbersAppend(a: seq<Num>, b: seq<Num>)
    ensures KeepNumbers(a + b) == KeepNumbers(a) + KeepNumbers(b)
  {
    if a == [] {
      assert a + b == b;
    } else {
      assert (a + b)[1..] == a[1..] + b;
      KeepNumbersAppend(a[1..], b);
    }
  }

  /** The numbers that the file summation passes on to sum. */
  function FileNumbers(text: string): seq<Num>
  {
    KeepNumbers(ParseAll(Split(text)))
  }
}
