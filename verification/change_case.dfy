/** The two case conversions the generator takes from the change-case
    library, following the rules of its version 4.

    `noCase` splits a string into words. Only ASCII letters and digits
    belong to words; every run of other characters separates words and is
    dropped. Inside a run, a new word starts at an upper-case letter that
    follows a lower-case letter or a digit, and at the last upper-case
    letter of a run of them when a lower-case letter follows it.

    `pascalCase` upper-cases the first character of each word and
    lower-cases the rest; a word after the first that starts with a digit
    gets an `_` in front of it instead. The words are joined with nothing
    between them. `camelCase` does the same, except that the first word is
    lower-cased entirely. */
module ChangeCase {
  import opened Concat

  predicate IsUpperCase(c: char)
  {
    'A' <= c <= 'Z'
  }

  predicate IsLowerCase(c: char)
  {
    'a' <= c <= 'z'
  }

  predicate IsDigit(c: char)
  {
    '0' <= c <= '9'
  }

  predicate IsAlphaNum(c: char)
  {
    IsUpperCase(c) || IsLowerCase(c) || IsDigit(c)
  }

  function Upper(c: char): (r: char)
    ensures IsAlphaNum(c) ==> IsAlphaNum(r)
    ensures !IsLowerCase(r)
  {
    if IsLowerCase(c) then (c as int - 'a' as int + 'A' as int) as char else c
  }

  function Lower(c: char): (r: char)
    ensures IsAlphaNum(c) ==> IsAlphaNum(r)
    ensures !IsUpperCase(r)
  {
    if IsUpperCase(c) then (c as int - 'A' as int + 'a' as int) as char else c
  }

  /** Lower-casing forgets whether a character was upper-cased first. */
  lemma {:induction false} LowerOfUpper(c: char)
    ensures Lower(Upper(c)) == Lower(c)
  {
  }

  /** `toLowerCase` on ASCII text. */
  function LowerAll(s: string): (r: string)
    ensures |r| == |s|
    ensures forall i :: 0 <= i < |s| ==> r[i] == Lower(s[i])
  {
    seq(|s|, i requires 0 <= i < |s| => Lower(s[i]))
  }

  /** Text without upper-case letters is its own lower-case form. */
  lemma {:induction false} LowerAllKeeps(s: string)
    requires forall i :: 0 <= i < |s| ==> !IsUpperCase(s[i])
    ensures LowerAll(s) == s
  {
  }

  /** A word: a non-empty run of letters and digits. */
  predicate IsWord(w: string)
  {
    |w| > 0 && forall i :: 0 <= i < |w| ==> IsAlphaNum(w[i])
  }

  /** The letters and digits of `s`, in order. */
  function Alphanumerics(s: string): string
  {
    if s == [] then [] else (if IsAlphaNum(s[0]) then [s[0]] else []) + Alphanumerics(s[1..])
  }

  lemma {:induction false} AlphanumericsAppend(a: string, b: string)
    ensures Alphanumerics(a + b) == Alphanumerics(a) + Alphanumerics(b)
  {
    if a == [] {
      assert a + b == b;
    } else {
      var head := if IsAlphaNum(a[0]) then [a[0]] else [];
      assert (a + b)[0] == a[0] && (a + b)[1..] == a[1..] + b;
      AlphanumericsAppend(a[1..], b);
      Assoc(head, Alphanumerics(a[1..]), Alphanumerics(b));
    }
  }

  lemma {:induction false} AlphanumericsOfWord(w: string)
    requires forall i :: 0 <= i < |w| ==> IsAlphaNum(w[i])
    ensures Alphanumerics(w) == w
  {
    if w != [] {
      AlphanumericsOfWord(w[1..]);
      assert [w[0]] + w[1..] == w;
    }
  }

  /** The length of the longest prefix of `s` made of letters and digits. */
  function AlnumPrefix(s: string): (n: nat)
    ensures n <= |s|
    ensures forall i :: 0 <= i < n ==> IsAlphaNum(s[i])
    ensures n < |s| ==> !IsAlphaNum(s[n])
  {
    if s == [] || !IsAlphaNum(s[0]) then 0
    else
      var n := 1 + AlnumPrefix(s[1..]);
      assert forall i :: 1 <= i < n ==> s[i] == s[1..][i - 1];
      n
  }

  /** The maximal runs of letters and digits of `s`, in order: what is left
      once every other character is treated as a separator. */
  function Runs(s: string): (r: seq<string>)
    ensures forall w :: w in r ==> IsWord(w)
    decreases |s|
  {
    if s == [] then []
    else if !IsAlphaNum(s[0]) then Runs(s[1..])
    else
      var n := AlnumPrefix(s);
      [s[..n]] + Runs(s[n..])
  }

  /** Splitting into runs drops exactly the separators. */
  lemma {:induction false} RunsKeepAlphanumerics(s: string)
    ensures Flatten(Runs(s)) == Alphanumerics(s)
    decreases |s|
  {
    if s != [] {
      if !IsAlphaNum(s[0]) {
        RunsKeepAlphanumerics(s[1..]);
      } else {
        var n := AlnumPrefix(s);
        var run, rest := s[..n], s[n..];
        RunsKeepAlphanumerics(rest);
        assert ([run] + Runs(rest))[1..] == Runs(rest);
        assert s == run + rest;
        AlphanumericsAppend(run, rest);
        AlphanumericsOfWord(run);
      }
    }
  }

  /** A word on its own is one run. */
  lemma {:induction false} RunsOfWord(w: string)
    requires IsWord(w)
    ensures Runs(w) == [w]
  {
    assert AlnumPrefix(w) == |w|;
    assert w[..|w|] == w && w[|w|..] == [];
  }

  /** A word followed by a separator is the first run. */
  lemma {:induction false} RunsAfterWord(a: string, c: char, b: string)
    requires IsWord(a) && !IsAlphaNum(c)
    ensures Runs(a + [c] + b) == [a] + Runs(b)
  {
    var s := a + [c] + b;
    assert s[0] == a[0];
    assert s[|a|] == c;
    assert forall i :: 0 <= i < |a| ==> s[i] == a[i];
    var n := AlnumPrefix(s);
    assert n == |a|;
    assert s[..n] == a;
    assert s[n..] == [c] + b;
    assert ([c] + b)[1..] == b;
  }

  /** Position `k` of a run starts a new word: an upper-case letter after a
      lower-case letter or a digit, or an upper-case letter after another
      one and before a lower-case letter. */
  predicate CaseBoundary(r: string, k: nat)
    requires 0 < k < |r|
  {
    ((IsLowerCase(r[k - 1]) || IsDigit(r[k - 1])) && IsUpperCase(r[k]))
    || (IsUpperCase(r[k - 1]) && IsUpperCase(r[k]) && k + 1 < |r| && IsLowerCase(r[k + 1]))
  }

  /** The first boundary of `r` at or after `k`, or `|r|` if there is none. */
  function NextBoundary(r: string, k: nat): (b: nat)
    requires 0 < k <= |r|
    ensures k <= b <= |r|
    ensures b < |r| ==> CaseBoundary(r, b)
    ensures forall j :: k <= j < b ==> !CaseBoundary(r, j)
    decreases |r| - k
  {
    if k == |r| || CaseBoundary(r, k) then k else NextBoundary(r, k + 1)
  }

  /** A run cut at its case boundaries. */
  function CaseSplit(r: string): (ws: seq<string>)
    requires forall i :: 0 <= i < |r| ==> IsAlphaNum(r[i])
    ensures forall w :: w in ws ==> IsWord(w)
    decreases |r|
  {
    if r == [] then []
    else
      var k := NextBoundary(r, 1);
      if k == |r| then [r] else [r[..k]] + CaseSplit(r[k..])
  }

  /** Cutting a run loses nothing. */
  lemma {:induction false} CaseSplitKeeps(r: string)
    requires forall i :: 0 <= i < |r| ==> IsAlphaNum(r[i])
    ensures Flatten(CaseSplit(r)) == r
    decreases |r|
  {
    if r != [] {
      var k := NextBoundary(r, 1);
      if k == |r| {
        assert Flatten([r]) == r + Flatten([]);
      } else {
        var rest := CaseSplit(r[k..]);
        CaseSplitKeeps(r[k..]);
        assert ([r[..k]] + rest)[1..] == rest;
        assert r[..k] + r[k..] == r;
      }
    }
  }

  /** A run without a case boundary is one word. */
  lemma {:induction false} CaseSplitWhole(r: string)
    requires IsWord(r)
    requires forall k :: 0 < k < |r| ==> !CaseBoundary(r, k)
    ensures CaseSplit(r) == [r]
  {
  }

  /** Text without upper-case letters has no case boundary. */
  lemma {:induction false} NoUpperNoBoundary(r: string)
    requires forall i :: 0 <= i < |r| ==> !IsUpperCase(r[i])
    ensures forall k :: 0 < k < |r| ==> !CaseBoundary(r, k)
  {
  }

  /** A run of upper-case letters has no case boundary. */
  lemma {:induction false} UpperNoBoundary(r: string)
    requires forall i :: 0 <= i < |r| ==> IsUpperCase(r[i])
    ensures forall k :: 0 < k < |r| ==> !CaseBoundary(r, k)
  {
  }

  /** The words of each run, in order. */
  function WordsOf(runs: seq<string>): (ws: seq<string>)
    requires forall w :: w in runs ==> IsWord(w)
    ensures forall w :: w in ws ==> IsWord(w)
  {
    if runs == [] then []
    else
      assert runs[0] in runs;
      assert IsWord(runs[0]);
      CaseSplit(runs[0]) + WordsOf(runs[1..])
  }

  /** Cutting the runs loses nothing. */
  lemma {:induction false} WordsOfKeeps(runs: seq<string>)
    requires forall w :: w in runs ==> IsWord(w)
    ensures Flatten(WordsOf(runs)) == Flatten(runs)
  {
    if runs != [] {
      assert runs[0] in runs;
      WordsOfKeeps(runs[1..]);
      CaseSplitKeeps(runs[0]);
      FlattenAppend(CaseSplit(runs[0]), WordsOf(runs[1..]));
    }
  }

  lemma {:induction false} WordsOfCons(run: string, runs: seq<string>)
    requires IsWord(run) && forall w :: w in runs ==> IsWord(w)
    ensures WordsOf([run] + runs) == CaseSplit(run) + WordsOf(runs)
  {
    assert ([run] + runs)[0] == run && ([run] + runs)[1..] == runs;
  }

  /** `noCase`'s words of `s`. */
  function Words(s: string): (ws: seq<string>)
    ensures forall w :: w in ws ==> IsWord(w)
  {
    WordsOf(Runs(s))
  }

  /** The words hold exactly the letters and digits of `s`, in order. */
  lemma {:induction false} WordsKeepAlphanumerics(s: string)
    ensures Flatten(Words(s)) == Alphanumerics(s)
  {
    RunsKeepAlphanumerics(s);
    WordsOfKeeps(Runs(s));
  }

  /** A word followed by a separator contributes its own words first. */
  lemma {:induction false} WordsAfterWord(a: string, c: char, b: string)
    requires IsWord(a) && !IsAlphaNum(c)
    ensures Words(a + [c] + b) == CaseSplit(a) + Words(b)
  {
    RunsAfterWord(a, c, b);
    WordsOfCons(a, Runs(b));
  }

  /** A word without a case boundary is the only word. */
  lemma {:induction false} WordsOfWhole(w: string)
    requires IsWord(w)
    requires forall k :: 0 < k < |w| ==> !CaseBoundary(w, k)
    ensures Words(w) == [w]
  {
    RunsOfWord(w);
    CaseSplitWhole(w);
    assert WordsOf([w]) == CaseSplit(w) + WordsOf([]);
  }

  /** Text made of letters, digits, and `_` only in front of a digit. */
  predicate PascalText(s: string)
  {
    forall i :: 0 <= i < |s| ==> PascalCharAt(s, i)
  }

  predicate PascalCharAt(s: string, i: nat)
    requires i < |s|
  {
    IsAlphaNum(s[i]) || (s[i] == '_' && i + 1 < |s| && IsDigit(s[i + 1]))
  }

  lemma {:induction false} PascalTextAppend(a: string, b: string)
    requires PascalText(a) && PascalText(b)
    ensures PascalText(a + b)
  {
    var s := a + b;
    forall i | 0 <= i < |s|
      ensures PascalCharAt(s, i)
    {
      if i < |a| {
        assert PascalCharAt(a, i);
        assert s[i] == a[i];
        if i + 1 < |a| {
          assert s[i + 1] == a[i + 1];
        }
      } else {
        var j := i - |a|;
        assert PascalCharAt(b, j);
        assert s[i] == b[j];
        if j + 1 < |b| {
          assert s[i + 1] == b[j + 1];
        }
      }
    }
  }

  /** `pascalCaseTransform` of the word at position `index`. */
  function PascalWord(w: string, index: nat): (r: string)
    requires IsWord(w)
    ensures PascalText(r)
    ensures |r| == |w| + (if index > 0 && IsDigit(w[0]) then 1 else 0)
  {
    if index > 0 && IsDigit(w[0]) then ['_', w[0]] + LowerAll(w[1..])
    else [Upper(w[0])] + LowerAll(w[1..])
  }

  /** The words from position `index` on, transformed and joined. */
  function PascalJoin(ws: seq<string>, index: nat): (r: string)
    requires forall w :: w in ws ==> IsWord(w)
    ensures PascalText(r)
  {
    if ws == [] then []
    else
      var rest := PascalJoin(ws[1..], index + 1);
      PascalTextAppend(PascalWord(ws[0], index), rest);
      PascalWord(ws[0], index) + rest
  }

  /** Every position after the first transforms a word the same way. */
  lemma {:induction false} PascalJoinShift(ws: seq<string>, i: nat, j: nat)
    requires forall w :: w in ws ==> IsWord(w)
    requires i > 0 && j > 0
    ensures PascalJoin(ws, i) == PascalJoin(ws, j)
  {
    if ws != [] {
      PascalJoinShift(ws[1..], i + 1, j + 1);
    }
  }

  /** `pascalCase`: letters and digits, and `_` only in front of a digit. */
  function PascalCase(s: string): (r: string)
    ensures PascalText(r)
  {
    PascalJoin(Words(s), 0)
  }

  /** `camelCase`: the PascalCase form with its first character lower-cased. */
  function CamelCase(s: string): (r: string)
    ensures |r| == |PascalCase(s)|
    ensures |r| > 0 ==> r[0] == Lower(PascalCase(s)[0])
    ensures forall i :: 0 < i < |r| ==> r[i] == PascalCase(s)[i]
  {
    var ws := Words(s);
    if ws == [] then []
    else
      assert ws[0] in ws;
      var w, rest := ws[0], PascalJoin(ws[1..], 1);
      assert PascalCase(s) == PascalWord(w, 0) + rest;
      FirstWordLowered(w, rest);
      LowerAll(w) + rest
  }

  /** The first word lower-cased differs from its PascalCase form only in
      the first character. */
  lemma {:induction false} FirstWordLowered(w: string, rest: string)
    requires IsWord(w)
    ensures var r, p := LowerAll(w) + rest, PascalWord(w, 0) + rest;
            && |r| == |p| && r[0] == Lower(p[0])
            && forall i :: 0 < i < |r| ==> r[i] == p[i]
  {
    LowerOfUpper(w[0]);
  }

  /** A non-empty word of lower-case letters is one word, written with its
      first letter upper-cased. */
  lemma {:induction false} LowerWord(w: string)
    requires |w| > 0 && forall i :: 0 <= i < |w| ==> IsLowerCase(w[i])
    ensures Words(w) == [w]
    ensures PascalCase(w) == [Upper(w[0])] + w[1..]
  {
    NoUpperNoBoundary(w);
    WordsOfWhole(w);
    LowerAllKeeps(w[1..]);
    assert PascalJoin([w], 0) == PascalWord(w, 0) + PascalJoin([], 1);
  }

  /** A word of upper-case letters is one word, and every letter after the
      first is lower-cased: `AB` becomes `Ab`. */
  lemma {:induction false} UpperWord(w: string)
    requires |w| > 0 && forall i :: 0 <= i < |w| ==> IsUpperCase(w[i])
    ensures Words(w) == [w]
    ensures PascalCase(w) == [w[0]] + LowerAll(w[1..])
  {
    UpperNoBoundary(w);
    WordsOfWhole(w);
    assert PascalJoin([w], 0) == PascalWord(w, 0) + PascalJoin([], 1);
  }

  /** Lower-case letters followed by upper-case letters are two words, the
      second lower-cased after its first letter: `userID` becomes `UserId`. */
  lemma {:induction false} HumpedWord(a: string, b: string)
    requires |a| > 0 && forall i :: 0 <= i < |a| ==> IsLowerCase(a[i])
    requires |b| > 0 && forall i :: 0 <= i < |b| ==> IsUpperCase(b[i])
    ensures Words(a + b) == [a, b]
    ensures PascalCase(a + b) == [Upper(a[0])] + a[1..] + ([b[0]] + LowerAll(b[1..]))
  {
    HumpedSplit(a, b);
    RunsOfWord(a + b);
    assert WordsOf([a + b]) == CaseSplit(a + b) + WordsOf([]);
    TwoWords(a, b);
    LowerAllKeeps(a[1..]);
  }

  /** The cut between lower-case and upper-case letters is the only one. */
  lemma {:induction false} HumpedSplit(a: string, b: string)
    requires |a| > 0 && forall i :: 0 <= i < |a| ==> IsLowerCase(a[i])
    requires |b| > 0 && forall i :: 0 <= i < |b| ==> IsUpperCase(b[i])
    ensures IsWord(a + b)
    ensures CaseSplit(a + b) == [a, b]
  {
    var r := a + b;
    assert forall i :: 0 <= i < |a| ==> r[i] == a[i];
    assert forall i :: |a| <= i < |r| ==> r[i] == b[i - |a|];
    assert IsWord(r);
    forall k | 0 < k < |a|
      ensures !CaseBoundary(r, k)
    {
    }
    assert CaseBoundary(r, |a|);
    assert NextBoundary(r, 1) == |a|;
    assert r[..|a|] == a && r[|a|..] == b;
    UpperNoBoundary(b);
    CaseSplitWhole(b);
  }

  /** Two words, the second not led by a digit, joined in PascalCase. */
  lemma {:induction false} TwoWords(a: string, b: string)
    requires IsWord(a) && IsWord(b) && !IsDigit(b[0])
    ensures PascalJoin([a, b], 0) == PascalWord(a, 0) + PascalWord(b, 0)
  {
    assert [a, b][0] == a && [a, b][1..] == [b];
    assert PascalJoin([b], 1) == PascalWord(b, 1) + PascalJoin([], 2);
  }

  /** A word after the first that starts with a digit gets an `_` in front:
      `a 1` becomes `A_1`. */
  lemma {:induction false} DigitWordAfterWord(a: string, c: char, d: string)
    requires |a| > 0 && forall i :: 0 <= i < |a| ==> IsLowerCase(a[i])
    requires !IsAlphaNum(c)
    requires |d| > 0 && forall i :: 0 <= i < |d| ==> IsDigit(d[i])
    ensures Words(a + [c] + d) == [a, d]
    ensures PascalCase(a + [c] + d) == [Upper(a[0])] + a[1..] + ['_'] + d
  {
    NoUpperNoBoundary(a);
    CaseSplitWhole(a);
    WordsAfterWord(a, c, d);
    NoUpperNoBoundary(d);
    WordsOfWhole(d);
    assert [a] + [d] == [a, d];
    DigitSecond(a, d);
  }

  lemma {:induction false} DigitSecond(a: string, d: string)
    requires |a| > 0 && forall i :: 0 <= i < |a| ==> IsLowerCase(a[i])
    requires |d| > 0 && forall i :: 0 <= i < |d| ==> IsDigit(d[i])
    ensures PascalJoin([a, d], 0) == [Upper(a[0])] + a[1..] + ['_'] + d
  {
    assert [a, d][0] == a && [a, d][1..] == [d];
    assert PascalJoin([d], 1) == PascalWord(d, 1) + PascalJoin([], 2);
    LowerAllKeeps(a[1..]);
    LowerAllKeeps(d[1..]);
    assert ['_', d[0]] + d[1..] == ['_'] + d;
  }

  /** Whether the first word of `s` starts with a digit. */
  predicate LeadsWithDigit(s: string)
  {
    var ws := Words(s);
    ws != [] && |ws[0]| > 0 && IsDigit(ws[0][0])
  }

  /** The handler name the generator derives with `camelCase("handle " + m)`
      agrees with the one it writes as `"handle" + pascalCase(m)` exactly
      when the first word of `m` does not start with a digit. */
  lemma {:induction false} HandleNameAgreement(m: string)
    ensures CamelCase("handle " + m) == "handle" + PascalCase(m) <==> !LeadsWithDigit(m)
  {
    var h := "handle";
    assert "handle " + m == h + [' '] + m;
    assert forall i :: 0 <= i < |h| ==> IsLowerCase(h[i]);
    NoUpperNoBoundary(h);
    CaseSplitWhole(h);
    WordsAfterWord(h, ' ', m);
    var ws := Words(m);
    assert Words("handle " + m) == [h] + ws;
    assert ([h] + ws)[1..] == ws;
    LowerAllKeeps(h);
    var camel := CamelCase("handle " + m);
    assert camel == h + PascalJoin(ws, 1);
    if ws != [] {
      PascalJoinShift(ws[1..], 1, 2);
      var w := ws[0];
      if IsDigit(w[0]) {
        assert camel[6] == '_';
        assert ("handle" + PascalCase(m))[6] == w[0];
      }
    }
  }
}
