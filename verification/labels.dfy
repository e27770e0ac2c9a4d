/**
 Volume labels: the regular expression `^[a-z][a-z0-9]*(-[a-z0-9]+)*$`, what it means as a language, an executable
 matcher by derivatives, and the plain description the error message gives.
 */
module Labels {
  import opened Kebab

  datatype CharClass = SmallLetter | SmallLetterOrDigit | Hyphen

  predicate InClass(c: char, k: CharClass) {
    match k
    case SmallLetter => Lower(c)
    case SmallLetterOrDigit => LowerOrDigit(c)
    case Hyphen => c == '-'
  }

  datatype Regex =
    | Nothing
    | Empty
    | One(k: CharClass)
    | Then(first: Regex, second: Regex)
    | Either(left: Regex, right: Regex)
    | Star(body: Regex)

  /** The language of an expression. */
  ghost predicate Matches(r: Regex, s: string)
    decreases r, |s|
  {
    match r
    case Nothing => false
    case Empty => s == ""
    case One(k) => |s| == 1 && InClass(s[0], k)
    case Then(a, b) => exists n :: 0 <= n <= |s| && Matches(a, s[..n]) && Matches(b, s[n..])
    case Either(a, b) => Matches(a, s) || Matches(b, s)
    case Star(a) => s == "" || exists n :: 0 < n <= |s| && Matches(a, s[..n]) && Matches(r, s[n..])
  }

  // ---- An executable matcher -------------------------------------------------------------------------

  predicate Nullable(r: Regex) {
    match r
    case Nothing => false
    case Empty => true
    case One(_) => false
    case Then(a, b) => Nullable(a) && Nullable(b)
    case Either(a, b) => Nullable(a) || Nullable(b)
    case Star(_) => true
  }

  /** What may follow c in a word of r. */
  function Derivative(r: Regex, c: char): Regex {
    match r
    case Nothing => Nothing
    case Empty => Nothing
    case One(k) => if InClass(c, k) then Empty else Nothing
    case Then(a, b) =>
      var through := Then(Derivative(a, c), b);
      if Nullable(a) then Either(through, Derivative(b, c)) else through
    case Either(a, b) => Either(Derivative(a, c), Derivative(b, c))
    case Star(a) => Then(Derivative(a, c), r)
  }

  predicate Accepts(r: Regex, s: string)
    decreases |s|
  {
    if s == "" then Nullable(r) else Accepts(Derivative(r, s[0]), s[1..])
  }

  lemma {:induction false} NullableMatchesEmpty(r: Regex)
    ensures Nullable(r) <==> Matches(r, "")
  {
    match r
    case Then(a, b) =>
      NullableMatchesEmpty(a);
      NullableMatchesEmpty(b);
      assert ""[..0] == ""[0..] == "";
    case Either(a, b) =>
      NullableMatchesEmpty(a);
      NullableMatchesEmpty(b);
    case _ =>
  }

  lemma ThenIntro(a: Regex, b: Regex, s: string, n: nat)
    requires n <= |s| && Matches(a, s[..n]) && Matches(b, s[n..])
    ensures Matches(Then(a, b), s)
  {
  }

  lemma ThenElim(a: Regex, b: Regex, s: string) returns (n: nat)
    requires Matches(Then(a, b), s)
    ensures n <= |s| && Matches(a, s[..n]) && Matches(b, s[n..])
  {
    n :| 0 <= n <= |s| && Matches(a, s[..n]) && Matches(b, s[n..]);
  }

  lemma StarIntro(a: Regex, s: string, n: nat)
    requires 0 < n <= |s| && Matches(a, s[..n]) && Matches(Star(a), s[n..])
    ensures Matches(Star(a), s)
  {
  }

  lemma {:induction false} DerivativeSound(r: Regex, s: string)
    requires s != "" && Matches(Derivative(r, s[0]), s[1..])
    ensures Matches(r, s)
    decreases r
  {
    var c, t := s[0], s[1..];
    match r
    case One(k) =>
    case Either(a, b) =>
      if Matches(Derivative(a, c), t) {
        DerivativeSound(a, s);
      } else {
        DerivativeSound(b, s);
      }
    case Then(a, b) =>
      if Matches(Then(Derivative(a, c), b), t) {
        var n := SplitDerivative(a, b, s);
        DerivativeSound(a, s[..n]);
        ThenIntro(a, b, s, n);
      } else {
        DerivativeSound(b, s);
        NullableMatchesEmpty(a);
        assert s[..0] == "" && s[0..] == s;
        ThenIntro(a, b, s, 0);
      }
    case Star(a) =>
      var n := SplitDerivative(a, r, s);
      DerivativeSound(a, s[..n]);
      StarIntro(a, s, n);
    case _ =>
  }

  /** A match of a derivative followed by b splits s into a first part that a's derivative reads and a rest. */
  lemma SplitDerivative(a: Regex, b: Regex, s: string) returns (n: nat)
    requires s != "" && Matches(Then(Derivative(a, s[0]), b), s[1..])
    ensures 0 < n <= |s| && s[..n] != "" && s[..n][0] == s[0]
    ensures Matches(Derivative(a, s[0]), s[..n][1..]) && Matches(b, s[n..])
  {
    hide Matches, Derivative;
    var t := s[1..];
    var m := ThenElim(Derivative(a, s[0]), b, t);
    n := m + 1;
    assert t[..m] == s[..n][1..] && t[m..] == s[n..];
  }

  lemma {:induction false} DerivativeComplete(r: Regex, s: string)
    requires s != "" && Matches(r, s)
    ensures Matches(Derivative(r, s[0]), s[1..])
    decreases r
  {
    var c, t := s[0], s[1..];
    match r
    case Either(a, b) =>
      if Matches(a, s) {
        DerivativeComplete(a, s);
      } else {
        DerivativeComplete(b, s);
      }
    case Then(a, b) =>
      var n :| 0 <= n <= |s| && Matches(a, s[..n]) && Matches(b, s[n..]);
      if n == 0 {
        assert s[..0] == "" && s[0..] == s;
        NullableMatchesEmpty(a);
        DerivativeComplete(b, s);
      } else {
        DerivativeComplete(a, s[..n]);
        JoinDerivative(a, b, s, n);
      }
    case Star(a) =>
      var n :| 0 < n <= |s| && Matches(a, s[..n]) && Matches(r, s[n..]);
      DerivativeComplete(a, s[..n]);
      JoinDerivative(a, r, s, n);
    case _ =>
  }

  lemma JoinDerivative(a: Regex, b: Regex, s: string, n: nat)
    requires 0 < n <= |s| && Matches(Derivative(a, s[0]), s[..n][1..]) && Matches(b, s[n..])
    ensures Matches(Then(Derivative(a, s[0]), b), s[1..])
  {
    hide Matches, Derivative;
    var t := s[1..];
    assert t[..n - 1] == s[..n][1..] && t[n - 1..] == s[n..];
    ThenIntro(Derivative(a, s[0]), b, t, n - 1);
  }

  /** The matcher decides the language of every expression. */
  lemma {:induction false} AcceptsDecides(r: Regex, s: string)
    ensures Accepts(r, s) <==> Matches(r, s)
    decreases |s|
  {
    if s == "" {
      NullableMatchesEmpty(r);
    } else {
      AcceptsDecides(Derivative(r, s[0]), s[1..]);
      if Matches(r, s) {
        DerivativeComplete(r, s);
      } else if Matches(Derivative(r, s[0]), s[1..]) {
        DerivativeSound(r, s);
      }
    }
  }

  // ---- The label expression --------------------------------------------------------------------------

  const WORD := Star(One(SmallLetterOrDigit))                                     // [a-z0-9]*
  const SEGMENT := Then(One(Hyphen), Then(One(SmallLetterOrDigit), WORD))         // -[a-z0-9]+
  const LABEL := Then(One(SmallLetter), Then(WORD, Star(SEGMENT)))

  /** Python's `match` with `$`: the end of the string, or just before a newline that ends it. */
  predicate LabelMatches(s: string) {
    Accepts(LABEL, s) || (s != "" && s[|s| - 1] == '\n' && Accepts(LABEL, s[..|s| - 1]))
  }

  /** The string without one trailing newline. */
  function Chomp(s: string): string {
    if s != "" && s[|s| - 1] == '\n' then s[..|s| - 1] else s
  }

  predicate AllLowerOrDigit(s: string) {
    forall i :: 0 <= i < |s| ==> LowerOrDigit(s[i])
  }

  lemma {:induction false} WordMeaning(s: string)
    ensures Matches(WORD, s) <==> AllLowerOrDigit(s)
    decreases |s|
  {
    if s != "" {
      WordMeaning(s[1..]);
      assert s[..1] == [s[0]] && s == [s[0]] + s[1..];
      if AllLowerOrDigit(s) {
        StarIntro(One(SmallLetterOrDigit), s, 1);
      }
      if Matches(WORD, s) {
        var n :| 0 < n <= |s| && Matches(One(SmallLetterOrDigit), s[..n]) && Matches(WORD, s[n..]);
        assert n == 1;
      }
    }
  }

  predicate IsSegment(s: string) {
    |s| >= 2 && s[0] == '-' && AllLowerOrDigit(s[1..])
  }

  lemma SegmentMeaning(s: string)
    ensures Matches(SEGMENT, s) <==> IsSegment(s)
  {
    var tail := Then(One(SmallLetterOrDigit), WORD);
    if IsSegment(s) {
      var t := s[1..];
      WordMeaning(t[1..]);
      assert t[..1] == [t[0]] && s[..1] == [s[0]];
      ThenIntro(One(SmallLetterOrDigit), WORD, t, 1);
      ThenIntro(One(Hyphen), tail, s, 1);
    }
    if Matches(SEGMENT, s) {
      var n :| 0 <= n <= |s| && Matches(One(Hyphen), s[..n]) && Matches(tail, s[n..]);
      assert n == 1;
      var t := s[1..];
      var m :| 0 <= m <= |t| && Matches(One(SmallLetterOrDigit), t[..m]) && Matches(WORD, t[m..]);
      assert m == 1;
      WordMeaning(t[1..]);
      assert t == [t[0]] + t[1..] && t[..1] == [t[0]];
    }
  }

  /** Empty, or small letters, digits and single hyphens, starting with a hyphen and ending with something else. */
  predicate IsTail(s: string) {
    s != "" ==> Hyphenated(s) && s[0] == '-'
  }

  /** Where the first hyphen at or after position `from` is, or the end. */
  function HyphenFrom(s: string, from: nat): (n: nat)
    requires from <= |s|
    ensures from <= n <= |s| && (n < |s| ==> s[n] == '-') && forall i :: from <= i < n ==> s[i] != '-'
    decreases |s| - from
  {
    if from == |s| || s[from] == '-' then from else HyphenFrom(s, from + 1)
  }

  lemma TailOfSegments(s: string, n: nat)
    requires 0 < n <= |s|
    ensures IsSegment(s[..n]) && IsTail(s[n..]) ==> IsTail(s)
  {
    if IsSegment(s[..n]) && IsTail(s[n..]) {
      assert forall i :: 0 < i < n ==> s[i] == s[..n][1..][i - 1];
      assert forall i :: n <= i < |s| ==> s[i] == s[n..][i - n];
    }
  }

  lemma {:induction false} TailMeaning(s: string)
    ensures Matches(Star(SEGMENT), s) <==> IsTail(s)
    decreases |s|
  {
    if s != "" {
      if IsTail(s) {
        var n := HyphenFrom(s, 1);
        assert |s| >= 2 && n >= 2;
        TailMeaning(s[n..]);
        SegmentMeaning(s[..n]);
        StarIntro(SEGMENT, s, n);
      }
      if Matches(Star(SEGMENT), s) {
        var n :| 0 < n <= |s| && Matches(SEGMENT, s[..n]) && Matches(Star(SEGMENT), s[n..]);
        SegmentMeaning(s[..n]);
        TailMeaning(s[n..]);
        TailOfSegments(s, n);
      }
    }
  }

  lemma KebabOfParts(s: string, n: nat)
    requires 1 <= n <= |s|
    ensures Lower(s[0]) && AllLowerOrDigit(s[1..n]) && IsTail(s[n..]) ==> IsKebab(s)
  {
    if Lower(s[0]) && AllLowerOrDigit(s[1..n]) && IsTail(s[n..]) {
      assert forall i :: 1 <= i < n ==> s[i] == s[1..n][i - 1];
      assert forall i :: n <= i < |s| ==> s[i] == s[n..][i - n];
    }
  }

  lemma PartsOfKebab(s: string)
    requires IsKebab(s)
    ensures AllLowerOrDigit(s[1..HyphenFrom(s, 1)]) && IsTail(s[HyphenFrom(s, 1)..])
  {
  }

  lemma KebabMatches(s: string)
    requires IsKebab(s)
    ensures Matches(LABEL, s)
  {
    var n, t := HyphenFrom(s, 1), s[1..];
    PartsOfKebab(s);
    assert t[..n - 1] == s[1..n] && t[n - 1..] == s[n..];
    assert Matches(One(SmallLetter), s[..1]);
    hide Matches, IsKebab;
    WordMeaning(t[..n - 1]);
    TailMeaning(t[n - 1..]);
    ThenIntro(WORD, Star(SEGMENT), t, n - 1);
    ThenIntro(One(SmallLetter), Then(WORD, Star(SEGMENT)), s, 1);
  }

  lemma MatchIsKebab(s: string)
    requires Matches(LABEL, s)
    ensures IsKebab(s)
  {
    var one := ThenElim(One(SmallLetter), Then(WORD, Star(SEGMENT)), s);
    assert one == 1 && Lower(s[..1][0]);
    hide Matches, IsKebab;
    var t := s[1..];
    var m := ThenElim(WORD, Star(SEGMENT), t);
    assert t[..m] == s[1..m + 1] && t[m..] == s[m + 1..];
    WordMeaning(t[..m]);
    TailMeaning(t[m..]);
    KebabOfParts(s, m + 1);
  }

  /** The expression without its anchors means the plain description. */
  lemma ExpressionMeaning(s: string)
    ensures Matches(LABEL, s) <==> IsKebab(s)
  {
    hide Matches, IsKebab;
    if IsKebab(s) {
      KebabMatches(s);
    } else if Matches(LABEL, s) {
      MatchIsKebab(s);
    }
  }

  /** A label is accepted exactly when, one trailing newline aside, it fits the description in the error message. */
  lemma {:induction false} LabelLanguage(s: string)
    ensures LabelMatches(s) <==> IsKebab(Chomp(s))
    ensures LabelMatches(s) <==> Matches(LABEL, s) || (s != "" && s[|s| - 1] == '\n' && Matches(LABEL, s[..|s| - 1]))
  {
    AcceptsDecides(LABEL, s);
    ExpressionMeaning(s);
    if s != "" {
      AcceptsDecides(LABEL, s[..|s| - 1]);
      ExpressionMeaning(s[..|s| - 1]);
    }
  }

  /** The documentation promises no newline; the code accepts one, and never two. */
  lemma NewlineSlipsThrough(s: string)
    requires IsKebab(s)
    ensures LabelMatches(s) && LabelMatches(s + "\n") && !LabelMatches(s + "\n\n")
  {
    LabelLanguage(s);
    LabelLanguage(s + "\n");
    LabelLanguage(s + "\n\n");
    assert Chomp(s + "\n") == s;
    assert Chomp(s + "\n\n") == s + "\n";
    assert (s + "\n")[|s|] == '\n';
  }

  /** The kebab-case form of a class name is a valid label. */
  lemma SpellTypesAreLabels(name: string)
    requires name != "" && IsAlphanumeric(name) && (Upper(name[0]) || Lower(name[0]))
    ensures LabelMatches(Rewrite(name))
  {
    ClassNamesBecomeKebab(name);
    LabelLanguage(Rewrite(name));
  }
}
