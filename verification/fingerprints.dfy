/** The strings that identify security-list contributions and NSG rules, and what they identify. */
module Fingerprints {
  import opened Text

  datatype Tier = Public | Private | Secure | Management

  function TierName(t: Tier): (s: string)
    ensures Token(s)
  {
    match t
    case Public => "public"
    case Private => "private"
    case Secure => "secure"
    case Management => "management"
  }

  /** What a fingerprint stands for; several spells may share a key, as `PublicIngress(22)` is shared. */
  datatype Key =
    | PublicIngress(port: nat)                          // public-ingress-tcp-{port}
    | EgressServices(tier: Tier)                        // {tier}-egress-all-services
    | EgressInternet(tier: Tier)                        // {tier}-egress-all-internet
    | CrossEgress(source: Tier, port: nat, target: Tier)  // {source}-egress-tcp-{port}-to-{target}
    | CrossIngress(target: Tier, port: nat, source: Tier) // {target}-ingress-tcp-{port}-from-{source}
    | ComputeSsh(tier: Tier)                            // compute-{tier}-ingress-tcp-22
    | BastionSsh                                        // bastion-private-ingress-tcp-22
    | LbPublic(port: nat)                               // lb-public-ingress-tcp-{port}
    | LbPrivate                                         // lb-private-ingress-tcp-80

  function Tokens(k: Key): (ts: seq<string>)
    ensures |ts| > 0
  {
    match k
    case PublicIngress(port) => ["public", "ingress", "tcp", Decimal(port)]
    case EgressServices(tier) => [TierName(tier), "egress", "all", "services"]
    case EgressInternet(tier) => [TierName(tier), "egress", "all", "internet"]
    case CrossEgress(source, port, target) => [TierName(source), "egress", "tcp", Decimal(port), "to", TierName(target)]
    case CrossIngress(target, port, source) => [TierName(target), "ingress", "tcp", Decimal(port), "from",
        TierName(source)]
    case ComputeSsh(tier) => ["compute", TierName(tier), "ingress", "tcp", "22"]
    case BastionSsh => ["bastion", "private", "ingress", "tcp", "22"]
    case LbPublic(port) => ["lb", "public", "ingress", "tcp", Decimal(port)]
    case LbPrivate => ["lb", "private", "ingress", "tcp", "80"]
  }

  function Render(k: Key): string {
    Hyphenated(Tokens(k))
  }

  lemma TokensAreTokens(k: Key, t: string)
    requires t in Tokens(k)
    ensures Token(t)
  {
  }

  lemma TierNameInjective(t: Tier, u: Tier)
    requires TierName(t) == TierName(u)
    ensures t == u
  {
    assert TierName(t)[1] == TierName(u)[1] && |TierName(t)| == |TierName(u)|;
  }

  lemma TokensInjective(a: Key, b: Key)
    requires Tokens(a) == Tokens(b)
    ensures a == b
  {
    var s, t := Tokens(a), Tokens(b);
    assert |s| == |t|;
    assert s[0] == t[0] && s[1] == t[1] && s[2] == t[2] && s[3] == t[3];
    if |s| == 4 {
      assert |s[2]| == |t[2]| && |s[3]| == |t[3]|;
      assert a.PublicIngress? <==> s[1][0] == 'i';
      assert b.PublicIngress? <==> t[1][0] == 'i';
      if a.PublicIngress? {
        DecimalInjective(a.port, b.port);
      } else {
        TierNameInjective(a.tier, b.tier);
        assert a.EgressServices? <==> s[3][0] == 's';
        assert b.EgressServices? <==> t[3][0] == 's';
      }
    } else if |s| == 6 {
      assert s[5] == t[5];
      assert a.CrossEgress? <==> s[1][0] == 'e';
      assert b.CrossEgress? <==> t[1][0] == 'e';
      DecimalInjective(a.port, b.port);
      TierNameInjective(if a.CrossEgress? then a.source else a.target, if b.CrossEgress? then b.source else b.target);
      TierNameInjective(if a.CrossEgress? then a.target else a.source, if b.CrossEgress? then b.target else b.source);
    } else {
      assert s[4] == t[4];
      assert a.ComputeSsh? <==> s[0][0] == 'c';
      assert b.ComputeSsh? <==> t[0][0] == 'c';
      assert a.BastionSsh? <==> s[0][0] == 'b';
      assert b.BastionSsh? <==> t[0][0] == 'b';
      if a.ComputeSsh? {
        TierNameInjective(a.tier, b.tier);
      } else if !a.BastionSsh? {
        assert a.LbPublic? <==> s[1][1] == 'u';
        assert b.LbPublic? <==> t[1][1] == 'u';
        if a.LbPublic? {
          DecimalInjective(a.port, b.port);
        }
      }
    }
  }

  /** Two keys never share a fingerprint, whatever the ports. */
  lemma RenderInjective(a: Key, b: Key)
    requires Render(a) == Render(b)
    ensures a == b
  {
    forall t | t in Tokens(a) || t in Tokens(b)
      ensures Token(t)
    {
      if t in Tokens(a) {
        TokensAreTokens(a, t);
      } else {
        TokensAreTokens(b, t);
      }
    }
    HyphenatedInjective(Tokens(a), Tokens(b));
    TokensInjective(a, b);
  }

  function Prints(keys: set<Key>): set<string> {
    set k | k in keys :: Render(k)
  }

  /** Looking a rendered key up among the rendered keys is looking the key up. */
  lemma PrintsMember(k: Key, keys: set<Key>)
    ensures Render(k) in Prints(keys) <==> k in keys
  {
    if Render(k) in Prints(keys) {
      var k' :| k' in keys && Render(k') == Render(k);
      RenderInjective(k, k');
    }
  }

  // ---- NSG rule labels -------------------------------------------------------------------------------

  /** The labels generated for NSG rules; peer names are arbitrary strings. */
  datatype Label =
    | Out(name: string, port: nat)     // out-{name}-{port}
    | In(name: string, port: nat)      // in-{name}-{port}
    | OutSsh(name: string)             // out-{name}-ssh
    | InSsh(name: string)              // in-{name}-ssh
    | InternetIn(port: nat)            // internet-in-{port}
    | ServicesOut                      // svc-out
    | InternetOut                      // inet-out

  function LabelHead(l: Label): string {
    match l
    case Out(name, _) => "out-" + name
    case In(name, _) => "in-" + name
    case OutSsh(name) => "out-" + name
    case InSsh(name) => "in-" + name
    case InternetIn(_) => "internet-in"
    case ServicesOut => "svc"
    case InternetOut => "inet"
  }

  function LabelLast(l: Label): string {
    match l
    case Out(_, port) => Decimal(port)
    case In(_, port) => Decimal(port)
    case OutSsh(_) => "ssh"
    case InSsh(_) => "ssh"
    case InternetIn(port) => Decimal(port)
    case ServicesOut => "out"
    case InternetOut => "out"
  }

  function RenderLabel(l: Label): string {
    LabelHead(l) + "-" + LabelLast(l)
  }

  /** Distinct labels render to distinct strings, even when a peer's name contains hyphens or digits. */
  lemma LabelInjective(a: Label, b: Label)
    requires RenderLabel(a) == RenderLabel(b)
    ensures a == b
  {
    LastTokenUnique(LabelHead(a), LabelLast(a), LabelHead(b), LabelLast(b));
    HeadsDiffer(a, b);
    var c := LabelLast(a)[0];
    assert c in LabelLast(a) && c in LabelLast(b) && LabelLast(b)[0] == c;
    assert (a.Out? || a.In? || a.InternetIn?) <==> '0' <= c <= '9';
    assert (b.Out? || b.In? || b.InternetIn?) <==> '0' <= c <= '9';
    if a.Out? || a.In? || a.InternetIn? {
      DecimalInjective(a.port, b.port);
    }
  }

  lemma HeadsDiffer(a: Label, b: Label)
    requires LabelHead(a) == LabelHead(b)
    ensures (a.Out? || a.OutSsh?) == (b.Out? || b.OutSsh?)
    ensures (a.In? || a.InSsh?) == (b.In? || b.InSsh?)
    ensures a.InternetIn? == b.InternetIn? && a.ServicesOut? == b.ServicesOut? && a.InternetOut? == b.InternetOut?
    ensures (a.Out? || a.OutSsh? || a.In? || a.InSsh?) ==> a.name == b.name
  {
    var h, g := LabelHead(a), LabelHead(b);
    assert h[0] == g[0] && h[1] == g[1] && h[2] == g[2];
    if a.Out? || a.OutSsh? {
      assert h[4..] == a.name && g[4..] == b.name;
    } else if a.In? || a.InSsh? {
      assert h[3..] == a.name && g[3..] == b.name;
    }
  }
}
