/**
 The CamelCase to kebab-case rewrite behind the spell-type tag: two regular-expression substitutions, one after the
 other, against a single scan that looks only at the neighbours of each letter.  Character classes are the ASCII ones.
 */
module Kebab {

  predicate Upper(c: char) {
    'A' <= c <= 'Z'
  }

  predicate Lower(c: char) {
    'a' <= c <= 'z'
  }

  predicate LowerOrDigit(c: char) {
    Lower(c) || '0' <= c <= '9'
  }

  function ToLower(c: char): (l: char)
    ensures !Upper(l) && (!Upper(c) ==> l == c) && (Upper(c) ==> Lower(l))
  {
    if Upper(c) then (c as int + 32) as char else c
  }

  function LowerAll(s: string): (l: string)
    ensures |l| == |s| && forall i :: 0 <= i < |s| ==> l[i] == ToLower(s[i])
  {
    seq(|s|, i requires 0 <= i < |s| => ToLower(s[i]))
  }

  /** The part after the last colon. */
  function ClassName(urn: string): (name: string)
    ensures ':' !in name
    ensures urn == name || exists head :: urn == head + ":" + name
  {
    if ':' !in urn then urn
    else if ':' !in urn[1..] then
      assert urn == "" + ":" + urn[1..];
      urn[1..]
    else
      var name := ClassName(urn[1..]);
      assert exists head :: urn == head + ":" + name by {
        var head :| urn[1..] == head + ":" + name;
        assert urn == (urn[..1] + head) + ":" + name;
      }
      name
  }

  // ---- First substitution: ([A-Z]+)([A-Z][a-z]) ------------------------------------------------------

  /** Greedy `[A-Z]+`: how many capitals start at p. */
  function CapitalRun(s: string, p: nat): (r: nat)
    requires p <= |s|
    ensures p + r <= |s| && (forall i :: p <= i < p + r ==> Upper(s[i])) && (p + r < |s| ==> !Upper(s[p + r]))
    decreases |s| - p
  {
    if p < |s| && Upper(s[p]) then 1 + CapitalRun(s, p + 1) else 0
  }

  /** Backtracking: the longest first group of at most g capitals that leaves a capital and a small letter to match. */
  function FirstGroup(s: string, p: nat, g: nat): (k: nat)
    requires p + g <= |s|
    ensures k <= g
  {
    if g == 0 then 0
    else if p + g + 1 < |s| && Upper(s[p + g]) && Lower(s[p + g + 1]) then g
    else FirstGroup(s, p, g - 1)
  }

  /** The replacement `\1-\2` of a match at p whose first group has g capitals, followed by the rest. */
  function Hyphenate(s: string, p: nat, g: nat, rest: string): string
    requires p + g + 2 <= |s|
  {
    s[p..p + g] + ("-" + (s[p + g..p + g + 2] + rest))
  }

  /** Leftmost, non-overlapping replacement from position p on. */
  function SplitAcronyms(s: string, p: nat): string
    requires p <= |s|
    decreases |s| - p
  {
    if p == |s| then ""
    else
      var g := FirstGroup(s, p, CapitalRun(s, p));
      if g > 0 && p + g + 2 <= |s| then Hyphenate(s, p, g, SplitAcronyms(s, p + g + 2))
      else [s[p]] + SplitAcronyms(s, p + 1)
  }

  // ---- Second substitution: ([a-z\d])([A-Z]) ---------------------------------------------------------

  function SplitWords(s: string): string {
    if |s| < 2 then s
    else if LowerOrDigit(s[0]) && Upper(s[1]) then [s[0], '-', s[1]] + SplitWords(s[2..])
    else [s[0]] + SplitWords(s[1..])
  }

  /** The whole rewrite of a class name. */
  function Rewrite(name: string): string {
    LowerAll(SplitWords(SplitAcronyms(name, 0)))
  }

  function SpellType(urn: string): string {
    Rewrite(ClassName(urn))
  }

  // ---- The single scan -------------------------------------------------------------------------------

  /** A capital that ends an acronym and starts a word. */
  predicate AcronymCut(s: string, i: nat) {
    0 < i && i + 1 < |s| && Upper(s[i - 1]) && Upper(s[i]) && Lower(s[i + 1])
  }

  /** A capital after a small letter or digit, or after a capital and before a small letter. */
  predicate Cut(s: string, i: nat) {
    0 < i < |s| && Upper(s[i]) && (LowerOrDigit(s[i - 1]) || AcronymCut(s, i))
  }

  function Mark(cut: bool, rest: string): string {
    if cut then "-" + rest else rest
  }

  function MarkAcronyms(s: string, i: nat): string
    requires i <= |s|
    decreases |s| - i
  {
    if i == |s| then "" else Mark(AcronymCut(s, i), [s[i]] + MarkAcronyms(s, i + 1))
  }

  /** A hyphen before each cut, every letter in lower case. */
  function Scan(s: string, i: nat): string
    requires i <= |s|
    decreases |s| - i
  {
    if i == |s| then "" else Mark(Cut(s, i), [ToLower(s[i])] + Scan(s, i + 1))
  }

  // ---- Two passes are one scan -----------------------------------------------------------------------

  /** Backtracking gives up at most one capital: the first group stops where the run's last capital starts a word. */
  lemma {:induction false} FirstGroupExact(s: string, p: nat, g: nat)
    requires p <= |s| && g <= CapitalRun(s, p)
    ensures var r := CapitalRun(s, p);
            FirstGroup(s, p, g) == if g >= r - 1 && r >= 2 && p + r < |s| && Lower(s[p + r]) then r - 1 else 0
  {
    var r := CapitalRun(s, p);
    if g > 0 && !(p + g + 1 < |s| && Upper(s[p + g]) && Lower(s[p + g + 1])) {
      FirstGroupExact(s, p, g - 1);
    }
  }

  lemma {:induction false} NoCutsBetween(s: string, i: nat, j: nat)
    requires i <= j <= |s| && forall k :: i <= k < j ==> !AcronymCut(s, k)
    ensures MarkAcronyms(s, i) == s[i..j] + MarkAcronyms(s, j)
    decreases j - i
  {
    if i < j {
      NoCutsBetween(s, i + 1, j);
    }
  }

  /** Does a match of the first expression start at p? */
  predicate AcronymAt(s: string, p: nat)
    requires p <= |s|
  {
    var r := CapitalRun(s, p);
    r >= 2 && p + r < |s| && Lower(s[p + r])
  }

  lemma AcronymHasOneCut(s: string, p: nat)
    requires p < |s| && AcronymAt(s, p)
    ensures var cut := p + CapitalRun(s, p) - 1;
            && (forall k :: p < k <= cut + 2 ==> (AcronymCut(s, k) <==> k == cut))
            && p < cut && cut + 2 <= |s|
  {
  }

  lemma NoAcronymNoCut(s: string, p: nat)
    requires p < |s| && !AcronymAt(s, p)
    ensures !AcronymCut(s, p + 1)
  {
    assert p + 1 < |s| && Upper(s[p]) && Upper(s[p + 1]) ==> CapitalRun(s, p) == 2 + CapitalRun(s, p + 2);
  }

  lemma SplitAtAcronym(s: string, p: nat)
    requires p < |s| && AcronymAt(s, p)
    ensures var g := CapitalRun(s, p) - 1;
            SplitAcronyms(s, p) == Hyphenate(s, p, g, SplitAcronyms(s, p + g + 2))
  {
    hide FirstGroup, CapitalRun, Hyphenate;
    FirstGroupExact(s, p, CapitalRun(s, p));
    assert FirstGroup(s, p, CapitalRun(s, p)) == CapitalRun(s, p) - 1;
  }

  lemma SplitElsewhere(s: string, p: nat)
    requires p < |s| && !AcronymAt(s, p)
    ensures SplitAcronyms(s, p) == [s[p]] + SplitAcronyms(s, p + 1)
  {
    hide FirstGroup, CapitalRun;
    FirstGroupExact(s, p, CapitalRun(s, p));
  }

  lemma MarkCut(s: string, cut: nat)
    requires cut + 2 <= |s| && AcronymCut(s, cut) && !AcronymCut(s, cut + 1)
    ensures MarkAcronyms(s, cut) == "-" + (s[cut..cut + 2] + MarkAcronyms(s, cut + 2))
  {
    var rest := MarkAcronyms(s, cut + 2);
    assert MarkAcronyms(s, cut + 1) == [s[cut + 1]] + rest;
    assert [s[cut]] + ([s[cut + 1]] + rest) == s[cut..cut + 2] + rest;
  }

  lemma {:induction false} AcronymStep(s: string, p: nat)
    requires p < |s| && AcronymAt(s, p) && !AcronymCut(s, p)
    ensures var next := p + CapitalRun(s, p) + 1;
            && p < next <= |s| && !AcronymCut(s, next)
            && (SplitAcronyms(s, next) == MarkAcronyms(s, next) ==> SplitAcronyms(s, p) == MarkAcronyms(s, p))
  {
    hide SplitAcronyms, MarkAcronyms, CapitalRun, AcronymCut, AcronymAt;
    var cut := p + CapitalRun(s, p) - 1;
    SplitAtAcronym(s, p);
    AcronymHasOneCut(s, p);
    NoCutsBetween(s, p, cut);
    MarkCut(s, cut);
  }

  lemma {:induction false} FirstPassMarks(s: string, p: nat)
    requires p <= |s| && !AcronymCut(s, p)
    ensures SplitAcronyms(s, p) == MarkAcronyms(s, p)
    decreases |s| - p
  {
    hide CapitalRun, AcronymCut, AcronymAt;
    if p < |s| {
      if AcronymAt(s, p) {
        AcronymStep(s, p);
        FirstPassMarks(s, p + CapitalRun(s, p) + 1);
      } else {
        SplitElsewhere(s, p);
        NoAcronymNoCut(s, p);
        FirstPassMarks(s, p + 1);
      }
    }
  }

  /** The second substitution, one letter at a time: `previous` is the letter before s. */
  function MarkWords(previous: char, s: string): string
    decreases |s|
  {
    if s == "" then ""
    else Mark(LowerOrDigit(previous) && Upper(s[0]), [s[0]] + MarkWords(s[0], s[1..]))
  }

  lemma MarkWordsOne(previous: char, c: char, rest: string)
    ensures MarkWords(previous, [c] + rest)
         == Mark(LowerOrDigit(previous) && Upper(c), [c] + MarkWords(c, rest))
  {
    assert ([c] + rest)[1..] == rest;
  }

  lemma {:induction false} SecondPassMarks(previous: char, s: string)
    requires s != "" ==> !(LowerOrDigit(previous) && Upper(s[0]))
    ensures SplitWords(s) == MarkWords(previous, s)
    decreases |s|
  {
    if |s| == 1 {
      assert MarkWords(s[0], s[1..]) == "";
    } else if |s| >= 2 {
      hide MarkWords;
      var tail, rest := s[1..], s[2..];
      assert s == [s[0]] + tail && tail == [s[1]] + rest;
      MarkWordsOne(previous, s[0], tail);
      MarkWordsOne(s[0], s[1], rest);
      if LowerOrDigit(s[0]) && Upper(s[1]) {
        SecondPassMarks(s[1], rest);
        assert [s[0], '-', s[1]] + SplitWords(rest) == [s[0]] + ("-" + ([s[1]] + SplitWords(rest)));
      } else {
        SecondPassMarks(s[0], tail);
      }
    }
  }

  lemma LowerAllCons(c: char, rest: string)
    ensures LowerAll([c] + rest) == [ToLower(c)] + LowerAll(rest)
  {
    var l, r := LowerAll([c] + rest), [ToLower(c)] + LowerAll(rest);
    assert forall i :: 0 <= i < |l| ==> l[i] == r[i];
  }

  lemma {:induction false} MarkedLetter(cut: bool, c: char, rest: string)
    ensures LowerAll(Mark(cut, [c] + rest)) == Mark(cut, [ToLower(c)] + LowerAll(rest))
  {
    hide LowerAll;
    LowerAllCons(c, rest);
    LowerAllCons('-', [c] + rest);
  }

  /** One letter of the second pass over the marked name is one letter of the scan. */
  lemma MergedLetter(s: string, i: nat, previous: char)
    requires i < |s| && (if i == 0 then !LowerOrDigit(previous) else previous == s[i - 1])
    ensures MarkWords(previous, MarkAcronyms(s, i)) == Mark(Cut(s, i), [s[i]] + MarkWords(s[i], MarkAcronyms(s, i + 1)))
  {
    hide MarkWords;
    var rest, c := MarkAcronyms(s, i + 1), s[i];
    MarkWordsOne(previous, c, rest);
    MarkWordsOne(previous, '-', [c] + rest);
    MarkWordsOne('-', c, rest);
  }

  lemma {:induction false} PassesMerge(s: string, i: nat, previous: char)
    requires i <= |s| && (if i == 0 then !LowerOrDigit(previous) else previous == s[i - 1])
    ensures LowerAll(MarkWords(previous, MarkAcronyms(s, i))) == Scan(s, i)
    decreases |s| - i
  {
    if i < |s| {
      hide MarkWords, MarkAcronyms, Cut, LowerAll;
      MergedLetter(s, i, previous);
      PassesMerge(s, i + 1, s[i]);
      MarkedLetter(Cut(s, i), s[i], MarkWords(s[i], MarkAcronyms(s, i + 1)));
    }
  }

  /** The two substitutions put a hyphen exactly at the cuts: one scan does the same. */
  lemma TwoPassesAreOneScan(name: string)
    ensures Rewrite(name) == Scan(name, 0)
  {
    FirstPassMarks(name, 0);
    SecondPassMarks('-', MarkAcronyms(name, 0));
    PassesMerge(name, 0, '-');
  }

  // ---- What the rewrite keeps ------------------------------------------------------------------------

  function WithoutHyphens(s: string): string {
    if s == "" then "" else (if s[0] == '-' then "" else [s[0]]) + WithoutHyphens(s[1..])
  }

  lemma WithoutHyphensMark(cut: bool, c: char, rest: string)
    ensures WithoutHyphens(Mark(cut, [c] + rest)) == (if c == '-' then "" else [c]) + WithoutHyphens(rest)
  {
    assert ([c] + rest)[1..] == rest;
    assert ("-" + ([c] + rest))[1..] == [c] + rest;
  }

  lemma {:induction false} ScanKeepsLetters(s: string, i: nat)
    requires i <= |s|
    ensures WithoutHyphens(Scan(s, i)) == LowerAll(WithoutHyphens(s[i..]))
    decreases |s| - i
  {
    if i < |s| {
      hide WithoutHyphens, Cut;
      ScanKeepsLetters(s, i + 1);
      WithoutHyphensMark(Cut(s, i), ToLower(s[i]), Scan(s, i + 1));
      WithoutHyphensMark(false, s[i], s[i + 1..]);
      assert s[i..] == Mark(false, [s[i]] + s[i + 1..]);
    }
  }

  /** Only hyphens are inserted: without them the name is there, in lower case. */
  lemma RewriteKeepsLetters(name: string)
    ensures WithoutHyphens(Rewrite(name)) == LowerAll(WithoutHyphens(name))
  {
    TwoPassesAreOneScan(name);
    ScanKeepsLetters(name, 0);
    assert name[0..] == name;
  }

  lemma {:induction false} ScanOfLower(s: string, i: nat)
    requires i <= |s| && forall c :: c in s ==> !Upper(c)
    ensures Scan(s, i) == s[i..]
    decreases |s| - i
  {
    if i < |s| {
      ScanOfLower(s, i + 1);
    }
  }

  lemma {:induction false} ScanHasNoColon(s: string, i: nat)
    requires i <= |s| && ':' !in s
    ensures ':' !in Scan(s, i)
    decreases |s| - i
  {
    if i < |s| {
      ScanHasNoColon(s, i + 1);
    }
  }

  /** The tag of a tag is the tag. */
  lemma SpellTypeIdempotent(urn: string)
    ensures SpellType(SpellType(urn)) == SpellType(urn)
  {
    var name := ClassName(urn);
    var tag := SpellType(urn);
    TwoPassesAreOneScan(name);
    ScanHasNoColon(name, 0);
    TwoPassesAreOneScan(tag);
    ScanOfLower(tag, 0);
  }

  // ---- Kebab-case ------------------------------------------------------------------------------------

  /** Small letters, digits and single hyphens, ending with a letter or digit. */
  predicate Hyphenated(s: string) {
    && |s| > 0 && LowerOrDigit(s[|s| - 1])
    && (forall i :: 0 <= i < |s| ==> LowerOrDigit(s[i]) || s[i] == '-')
    && (forall i :: 0 < i < |s| ==> s[i - 1] == '-' ==> s[i] != '-')
  }

  /** Starting with a letter, too. */
  predicate IsKebab(s: string) {
    Hyphenated(s) && Lower(s[0])
  }

  predicate IsAlphanumeric(s: string) {
    forall i :: 0 <= i < |s| ==> Upper(s[i]) || LowerOrDigit(s[i])
  }

  lemma HyphenatedCons(c: char, t: string)
    requires (LowerOrDigit(c) || c == '-') && Hyphenated(t) && (c == '-' ==> t[0] != '-')
    ensures Hyphenated([c] + t)
  {
  }

  lemma {:induction false} ScanTail(s: string, i: nat)
    requires i < |s| && IsAlphanumeric(s)
    ensures Hyphenated(Scan(s, i)) && Scan(s, i)[0] == if Cut(s, i) then '-' else ToLower(s[i])
    decreases |s| - i
  {
    hide Hyphenated, Cut;
    var rest := Scan(s, i + 1);
    if i + 1 < |s| {
      ScanTail(s, i + 1);
      HyphenatedCons(ToLower(s[i]), rest);
    } else {
      HyphenatedOne(ToLower(s[i]));
    }
    HyphenatedCons('-', [ToLower(s[i])] + rest);
  }

  lemma HyphenatedOne(c: char)
    requires LowerOrDigit(c)
    ensures Hyphenated([c]) && [c] + "" == [c]
  {
  }

  /** Every alphanumeric class name that starts with a letter becomes kebab-case. */
  lemma ClassNamesBecomeKebab(name: string)
    requires name != "" && IsAlphanumeric(name) && (Upper(name[0]) || Lower(name[0]))
    ensures IsKebab(Rewrite(name))
  {
    TwoPassesAreOneScan(name);
    ScanTail(name, 0);
  }
}
