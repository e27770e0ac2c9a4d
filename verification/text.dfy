/** Strings built from tokens and decimal numbers, and why different tokens give different strings. */
module Text {

  /** Python's `str(n)` for a natural number. */
  function Decimal(n: nat): (s: string)
    ensures |s| > 0 && forall c :: c in s ==> '0' <= c <= '9'
  {
    var digit := ['0' + (n % 10) as char];
    if n < 10 then digit else Decimal(n / 10) + digit
  }

  function Value(s: string): int {
    if s == [] then 0 else 10 * Value(s[..|s| - 1]) + (s[|s| - 1] as int - '0' as int)
  }

  /** Reading a rendered number back gives the number. */
  lemma {:induction false} ValueOfDecimal(n: nat)
    ensures Value(Decimal(n)) == n
  {
    var s := Decimal(n);
    if n < 10 {
      assert s[..|s| - 1] == [];
    } else {
      ValueOfDecimal(n / 10);
      assert s[..|s| - 1] == Decimal(n / 10);
    }
  }

  lemma DecimalInjective(m: nat, n: nat)
    requires Decimal(m) == Decimal(n)
    ensures m == n
  {
    ValueOfDecimal(m);
    ValueOfDecimal(n);
  }

  predicate Token(s: string) {
    '-' !in s
  }

  lemma DecimalIsToken(n: nat)
    ensures Token(Decimal(n))
  {
  }

  /** The tokens joined by single hyphens. */
  function Hyphenated(tokens: seq<string>): string
    requires |tokens| > 0
  {
    if |tokens| == 1 then tokens[0]
    else Hyphenated(tokens[..|tokens| - 1]) + "-" + tokens[|tokens| - 1]
  }

  /** Whatever precedes it, the part after the last hyphen is determined by the string. */
  lemma LastTokenUnique(head: string, last: string, head': string, last': string)
    requires Token(last) && Token(last')
    requires head + "-" + last == head' + "-" + last'
    ensures head == head' && last == last'
  {
    var s := head + "-" + last;
    assert s[|head|] == '-' && s[|head'|] == '-';
    assert forall i :: |head| < i < |s| ==> s[i] == last[i - |head| - 1];
    assert forall i :: |head'| < i < |s| ==> s[i] == last'[i - |head'| - 1];
    assert |head| == |head'|;
    assert s[..|head|] == head && s[..|head'|] == head';
    assert s[|head| + 1..] == last && s[|head'| + 1..] == last';
  }

  lemma HyphenInside(head: string, last: string)
    ensures !Token(head + "-" + last)
  {
    assert (head + "-" + last)[|head|] == '-';
  }

  /** Joining hyphen-free tokens loses nothing. */
  lemma {:induction false} HyphenatedInjective(a: seq<string>, b: seq<string>)
    requires |a| > 0 && |b| > 0
    requires forall t :: t in a || t in b ==> Token(t)
    requires Hyphenated(a) == Hyphenated(b)
    ensures a == b
    decreases |a|
  {
    var initA, initB := a[..|a| - 1], b[..|b| - 1];
    assert Token(a[0]) && Token(b[0]) && Token(a[|a| - 1]) && Token(b[|b| - 1]);
    if |a| == 1 && |b| == 1 {
    } else if |a| == 1 {
      HyphenInside(Hyphenated(initB), b[|b| - 1]);
    } else if |b| == 1 {
      HyphenInside(Hyphenated(initA), a[|a| - 1]);
    } else {
      LastTokenUnique(Hyphenated(initA), a[|a| - 1], Hyphenated(initB), b[|b| - 1]);
      HyphenatedInjective(initA, initB);
      assert a == initA + [a[|a| - 1]] && b == initB + [b[|b| - 1]];
    }
  }

  /** The one-based ordinal of a created resource, as `nsg-rule-1`. */
  function OrdinalSuffix(prefix: string, index: nat): string {
    prefix + "-" + Decimal(index + 1)
  }

  /** Ordinal names never clash, whatever hyphens their prefixes contain. */
  lemma OrdinalSuffixInjective(prefix: string, index: nat, prefix': string, index': nat)
    requires OrdinalSuffix(prefix, index) == OrdinalSuffix(prefix', index')
    ensures prefix == prefix' && index == index'
  {
    DecimalIsToken(index + 1);
    DecimalIsToken(index' + 1);
    LastTokenUnique(prefix, Decimal(index + 1), prefix', Decimal(index' + 1));
    DecimalInjective(index + 1, index' + 1);
  }

  /** Ordinals count from one. */
  lemma OrdinalCountsFromOne(prefix: string, index: nat)
    ensures var name := OrdinalSuffix(prefix, index);
            |name| > |prefix| && name[..|prefix|] == prefix && name[|prefix|] == '-'
                && Value(name[|prefix| + 1..]) == index + 1
  {
    var name := OrdinalSuffix(prefix, index);
    ValueOfDecimal(index + 1);
    assert name[|prefix| + 1..] == Decimal(index + 1);
  }
}
