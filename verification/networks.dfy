/**
 CIDR arithmetic: networks are (base, prefix) pairs over addresses of a fixed width (32 for IPv4, 128 for
 IPv6).  `Subnets` follows the standard library routine both splitters of the source call.
 */
module Networks {
  import opened Wrappers

  datatype Network = Network(width: nat, base: nat, prefix: nat)

  /** The ways `ipaddress` and the code around it reject a request. */
  datatype NetworkError = NewPrefixTooLong | NegativeDifference | IndexOutOfRange

  /** The whole IPv4 address space, `0.0.0.0/0`. */
  const INTERNET := Network(32, 0, 0)

  function Pow2(n: nat): (r: nat)
    ensures r > 0
  {
    if n == 0 then 1 else 2 * Pow2(n - 1)
  }

  function Size(net: Network): nat
    requires net.prefix <= net.width
  {
    Pow2(net.width - net.prefix)
  }

  /** Canonical form: no host bits set, and inside the address space. */
  ghost predicate Canonical(net: Network) {
    && net.prefix <= net.width
    && IsMultiple(net.base, Size(net))
    && net.base + Size(net) <= Pow2(net.width)
  }

  predicate Contains(net: Network, address: nat) {
    net.prefix <= net.width && net.base <= address < net.base + Size(net)
  }

  /** Every address of `inner` is an address of `outer`. */
  predicate Within(inner: Network, outer: Network) {
    && inner.prefix <= inner.width && outer.prefix <= outer.width
    && outer.base <= inner.base
    && inner.base + Size(inner) <= outer.base + Size(outer)
  }

  lemma {:induction false} PowMonotone(a: nat, b: nat)
    requires a <= b
    ensures Pow2(a) <= Pow2(b)
  {
    if a < b {
      PowMonotone(a, b - 1);
    }
  }

  // ---- Multiples, as repeated addition: address arithmetic stays linear -------------------------------

  /** `q * s`, the q-th step of size s. */
  function Times(q: nat, s: nat): nat {
    if q == 0 then 0 else Times(q - 1, s) + s
  }

  ghost predicate IsMultiple(x: nat, s: nat) {
    exists q: nat :: Times(q, s) == x
  }

  lemma {:induction false} TimesAdds(a: nat, b: nat, s: nat)
    ensures Times(a + b, s) == Times(a, s) + Times(b, s)
    decreases b
  {
    if b > 0 {
      TimesAdds(a, b - 1, s);
      assert Times(a + b, s) == Times(a + b - 1, s) + s;
    }
  }

  lemma {:induction false} TimesNests(q: nat, factor: nat, s: nat)
    ensures Times(q, Times(factor, s)) == Times(Times(q, factor), s)
  {
    if q > 0 {
      TimesNests(q - 1, factor, s);
      TimesAdds(Times(q - 1, factor), factor, s);
    }
  }

  lemma {:induction false} TimesHalves(q: nat, s: nat)
    ensures Times(q, 2 * s) == Times(2 * q, s)
  {
    if q > 0 {
      TimesHalves(q - 1, s);
      assert Times(2 * q, s) == Times(2 * q - 1, s) + s == Times(2 * q - 2, s) + s + s;
    }
  }

  lemma {:induction false} TimesOne(q: nat)
    ensures Times(q, 1) == q && Times(1, q) == q
  {
    if q > 0 {
      TimesOne(q - 1);
    }
    assert Times(1, q) == Times(0, q) + q;
  }

  lemma {:induction false} PowSplit(a: nat, b: nat)
    ensures Pow2(a + b) == Times(Pow2(a), Pow2(b))
  {
    if a == 0 {
      TimesOne(Pow2(b));
    } else {
      PowSplit(a - 1, b);
      TimesAdds(Pow2(a - 1), Pow2(a - 1), Pow2(b));
      assert Pow2(a + b) == 2 * Pow2(a - 1 + b);
    }
  }

  lemma MultiplesAscend(i: nat, j: nat, step: nat)
    requires i < j
    ensures Times(i, step) + step <= Times(j, step)
  {
    TimesAdds(i + 1, j - i - 1, step);
  }

  // ---- ipaddress: range and subnets ------------------------------------------------------------------

  /** Python's `range(start, end, step)` for a positive step. */
  function AddressRange(start: nat, end: nat, step: nat): (r: seq<nat>)
    requires step > 0
    decreases if start < end then end - start else 0
  {
    if start >= end then [] else [start] + AddressRange(start + step, end, step)
  }

  /** The networks `ip_network(net).subnets(prefixlen_diff=diff)` yields; a host route yields only itself. */
  function Subnets(net: Network, diff: int): (r: Result<seq<Network>, NetworkError>)
    requires Canonical(net)
  {
    if net.prefix == net.width then Ok([net])
    else if diff < 0 then Err(NegativeDifference)
    else if net.prefix + diff > net.width then Err(NewPrefixTooLong)
    else
      var starts := AddressRange(net.base, net.base + Size(net), Pow2(net.width - net.prefix - diff));
      Ok(seq(|starts|, i requires 0 <= i < |starts| => Network(net.width, starts[i], net.prefix + diff)))
  }

  /** The i-th of the 2^k equal parts of a network. */
  function Block(net: Network, k: nat, i: nat): Network
    requires net.prefix + k <= net.width
  {
    Network(net.width, net.base + Times(i, Pow2(net.width - net.prefix - k)), net.prefix + k)
  }

  lemma {:induction false} RangeOfMultiples(start: nat, count: nat, step: nat)
    requires step > 0
    ensures |AddressRange(start, start + Times(count, step), step)| == count
    ensures forall i :: 0 <= i < count ==>
              AddressRange(start, start + Times(count, step), step)[i] == start + Times(i, step)
    decreases count
  {
    if count > 0 {
      RangeOfMultiples(start + step, count - 1, step);
      var rest := AddressRange(start + step, start + Times(count, step), step);
      forall i | 0 <= i < count
        ensures ([start] + rest)[i] == start + Times(i, step)
      {
        if i > 0 {
          assert rest[i - 1] == start + step + Times(i - 1, step);
        }
      }
    }
  }

  /** Dividing a network that is not a host route gives exactly its 2^diff equal blocks, in address order. */
  lemma SubnetsAreBlocks(net: Network, diff: nat)
    requires Canonical(net) && net.prefix < net.width && net.prefix + diff <= net.width
    ensures Subnets(net, diff).Ok? && |Subnets(net, diff).value| == Pow2(diff)
    ensures forall i :: 0 <= i < Pow2(diff) ==> Subnets(net, diff).value[i] == Block(net, diff, i)
  {
    var step := Pow2(net.width - net.prefix - diff);
    PowSplit(diff, net.width - net.prefix - diff);
    RangeOfMultiples(net.base, Pow2(diff), step);
  }

  /** Blocks are canonical, stay inside the network, and follow one another without gap or overlap. */
  lemma BlockFits(net: Network, k: nat, i: nat)
    requires Canonical(net) && net.prefix + k <= net.width && i < Pow2(k)
    ensures Canonical(Block(net, k, i)) && Within(Block(net, k, i), net)
    ensures Block(net, k, i).base + Size(Block(net, k, i)) == Block(net, k, i + 1).base
  {
    hide Pow2, Times;
    PowSplit(k, net.width - net.prefix - k);
    Offsets(net.base, Pow2(k), i, Size(Block(net, k, i)));
  }

  /** The i-th of `count` steps of a multiple of their sum. */
  lemma Offsets(base: nat, count: nat, i: nat, step: nat)
    requires i < count && IsMultiple(base, Times(count, step))
    ensures IsMultiple(base + Times(i, step), step)
    ensures Times(i + 1, step) == Times(i, step) + step <= Times(count, step)
  {
    MultiplesAscend(i, count, step);
    var q: nat :| Times(q, Times(count, step)) == base;
    TimesNests(q, count, step);
    TimesAdds(Times(q, count), i, step);
    assert Times(Times(q, count) + i, step) == base + Times(i, step);
  }

  /** Addresses of an earlier block precede those of a later one. */
  lemma BlocksAscend(net: Network, k: nat, i: nat, j: nat)
    requires net.prefix + k <= net.width && i < j
    ensures Block(net, k, i).base + Size(Block(net, k, i)) <= Block(net, k, j).base
  {
    MultiplesAscend(i, j, Pow2(net.width - net.prefix - k));
  }

  // ---- Equal subdivision (Helper.calculate_subnets) --------------------------------------------------

  /** The least number of extra prefix bits that makes room for n blocks. */
  predicate LeastBits(k: nat, n: int) {
    Pow2(k) >= n && (k > 0 ==> Pow2(k - 1) < n)
  }

  lemma LeastBitsUnique(a: nat, b: nat, n: int)
    requires LeastBits(a, n) && LeastBits(b, n)
    ensures a == b
  {
    if a < b {
      PowMonotone(a, b - 1);
    } else if b < a {
      PowMonotone(b, a - 1);
    }
  }

  lemma {:induction false} PowGrows(k: nat)
    ensures Pow2(k) > k
  {
    if k > 0 {
      PowGrows(k - 1);
    }
  }

  /** Python's `items[:n]`; a negative bound counts from the end. */
  function Slice<T>(items: seq<T>, n: int): seq<T> {
    if n >= 0 then (if n <= |items| then items[..n] else items)
    else if |items| + n >= 0 then items[..|items| + n] else []
  }

  /**
   Split a supernet into n equal networks.  The search finds the least number of bits; the result is the first n
   of the 2^k blocks.  Two cases the documentation does not mention: a host route always answers with itself, and
   a supernet with too few bits is rejected.
   */
  method CalculateSubnets(supernet: Network, n: int) returns (r: Result<seq<Network>, NetworkError>, ghost k: nat)
    requires Canonical(supernet)
    ensures LeastBits(k, n)
    ensures supernet.prefix == supernet.width ==> r == Ok(if n >= 1 then [supernet] else [])
    ensures supernet.prefix < supernet.width ==> (r.Ok? <==> supernet.prefix + k <= supernet.width)
    ensures r.Err? ==> r.error == NewPrefixTooLong
    ensures supernet.prefix < supernet.width && r.Ok? ==>
              && |r.value| == (if n >= 0 then n else 0)
              && forall i :: 0 <= i < |r.value| ==> r.value[i] == Block(supernet, k, i)
  {
    var newPrefix := supernet.prefix;
    while Pow2(newPrefix - supernet.prefix) < n
      invariant newPrefix >= supernet.prefix
      invariant newPrefix > supernet.prefix ==> Pow2(newPrefix - supernet.prefix - 1) < n
      decreases n - (newPrefix - supernet.prefix)
    {
      PowGrows(newPrefix - supernet.prefix);
      newPrefix := newPrefix + 1;
    }
    k := newPrefix - supernet.prefix;
    assert Pow2(0) == 1;
    var subnets := Subnets(supernet, newPrefix - supernet.prefix);
    match subnets {
      case Err(e) =>
        r := Err(e);
      case Ok(all) =>
        r := Ok(Slice(all, n));
        assert all[..|all|] == all && all[..0] == [];
        if supernet.prefix < supernet.width {
          SubnetsAreBlocks(supernet, k);
          assert n < 0 ==> k == 0;
        }
    }
  }

  /** Exactly n canonical, equal, disjoint, ascending blocks inside the supernet whenever the bits suffice. */
  lemma EqualSplitIsSound(supernet: Network, k: nat, n: nat)
    requires Canonical(supernet) && supernet.prefix + k <= supernet.width && LeastBits(k, n)
    ensures forall i {:trigger Block(supernet, k, i)} :: 0 <= i < n ==>
              Canonical(Block(supernet, k, i)) && Within(Block(supernet, k, i), supernet)
              && Size(Block(supernet, k, i)) == Pow2(supernet.width - supernet.prefix - k)
    ensures forall i, j {:trigger Block(supernet, k, i), Block(supernet, k, j)} :: 0 <= i < j < n ==>
              Block(supernet, k, i).base + Size(Block(supernet, k, i)) <= Block(supernet, k, j).base
  {
    forall i {:trigger Block(supernet, k, i)} | 0 <= i < n
      ensures Canonical(Block(supernet, k, i)) && Within(Block(supernet, k, i), supernet)
    {
      BlockFits(supernet, k, i);
    }
    forall i, j {:trigger Block(supernet, k, i), Block(supernet, k, j)} | 0 <= i < j < n
      ensures Block(supernet, k, i).base + Size(Block(supernet, k, i)) <= Block(supernet, k, j).base
    {
      BlocksAscend(supernet, k, i, j);
    }
  }

  // ---- Unequal subdivision (Vcn._split_tiers) --------------------------------------------------------

  datatype TierCidrs = TierCidrs(public: Network, private: Network, secure: Network, management: Network)

  /** `list(net.subnets(prefixlen_diff=1))[index]` */
  function Half(net: Network, index: nat): (r: Result<Network, NetworkError>)
    requires Canonical(net)
    ensures r.Ok? ==> Canonical(r.value)
  {
    match Subnets(net, 1)
    case Err(e) => Err(e)
    case Ok(halves) =>
      if index < |halves| then
        (if net.prefix < net.width then
           SubnetsAreBlocks(net, 1); BlockFits(net, 1, index); Ok(halves[index])
         else Ok(halves[index]))
      else Err(IndexOutOfRange)
  }

  function SplitTiers(net: Network): (r: Result<TierCidrs, NetworkError>)
    requires Canonical(net)
  {
    match Half(net, 0)
    case Err(e) => Err(e)
    case Ok(private) =>
      match Half(net, 1)
      case Err(e) => Err(e)
      case Ok(upper) =>
        match Half(upper, 0)
        case Err(e) => Err(e)
        case Ok(secure) =>
          match Half(upper, 1)
          case Err(e) => Err(e)
          case Ok(last) =>
            match Half(last, 0)
            case Err(e) => Err(e)
            case Ok(public) =>
              match Half(last, 1)
              case Err(e) => Err(e)
              case Ok(management) => Ok(TierCidrs(public, private, secure, management))
  }

  lemma HalfIs(net: Network, index: nat)
    requires Canonical(net)
    ensures net.prefix < net.width && index < 2 ==> Half(net, index) == Ok(Block(net, 1, index))
    ensures net.prefix == net.width ==> Half(net, index) == (if index == 0 then Ok(net) else Err(IndexOutOfRange))
  {
    if net.prefix < net.width {
      SubnetsAreBlocks(net, 1);
      assert Pow2(1) == 2;
    }
  }

  lemma BlockOfBlock(net: Network, k: nat, i: nat, j: nat)
    requires net.prefix + k < net.width
    ensures Block(Block(net, k, i), 1, j) == Block(net, k + 1, 2 * i + j)
  {
    var step := Pow2(net.width - net.prefix - k - 1);
    assert Pow2(net.width - net.prefix - k) == 2 * step;
    TimesHalves(i, step);
    TimesAdds(2 * i, j, step);
  }

  /**
   The documentation accepts any prefix length; the code needs three spare bits, because a host route subdivides
   to itself and has no second half.  Success, and the tiers as items of an equal split into 2, 4, 8 and 8.
   */
  lemma SplitTiersMatchesEqualSplit(net: Network)
    requires Canonical(net)
    ensures SplitTiers(net).Ok? <==> net.prefix + 3 <= net.width
    ensures SplitTiers(net).Err? ==> SplitTiers(net).error == IndexOutOfRange
    ensures net.prefix + 3 <= net.width ==>
              SplitTiers(net).value == TierCidrs(Block(net, 3, 6), Block(net, 1, 0), Block(net, 2, 2), Block(net, 3, 7))
  {
    HalfIs(net, 0);
    HalfIs(net, 1);
    if net.prefix < net.width {
      assert Pow2(1) == 2;
      BlockFits(net, 1, 1);
      var upper := Block(net, 1, 1);
      HalfIs(upper, 0);
      HalfIs(upper, 1);
      if upper.prefix < upper.width {
        BlockFits(upper, 1, 1);
        BlockOfBlock(net, 1, 1, 0);
        BlockOfBlock(net, 1, 1, 1);
        var last := Block(upper, 1, 1);
        HalfIs(last, 0);
        HalfIs(last, 1);
        if last.prefix < last.width {
          BlockOfBlock(net, 2, 3, 0);
          BlockOfBlock(net, 2, 3, 1);
        }
      }
    }
  }

  /** Tier offsets in eighths of the network. */
  lemma TierLayout(net: Network)
    requires Canonical(net) && net.prefix + 3 <= net.width
    ensures SplitTiers(net).Ok?
    ensures var t, eighth := SplitTiers(net).value, Pow2(net.width - net.prefix - 3);
            && Size(net) == 8 * eighth
            && t.private == Network(net.width, net.base, net.prefix + 1) && Size(t.private) == 4 * eighth
            && t.secure == Network(net.width, net.base + 4 * eighth, net.prefix + 2) && Size(t.secure) == 2 * eighth
            && t.public == Network(net.width, net.base + 6 * eighth, net.prefix + 3) && Size(t.public) == eighth
            && t.management == Network(net.width, net.base + 7 * eighth, net.prefix + 3) && Size(t.management) == eighth
  {
    hide Canonical;
    SplitTiersMatchesEqualSplit(net);
    var eighth := Pow2(net.width - net.prefix - 3);
    assert Pow2(net.width - net.prefix - 2) == 2 * eighth;
    assert Pow2(net.width - net.prefix - 1) == 4 * eighth;
    TimesUpTo7(eighth);
    TimesUpTo7(2 * eighth);
    TimesUpTo7(4 * eighth);
  }

  lemma TimesUpTo7(s: nat)
    ensures Times(0, s) == 0 && Times(1, s) == s && Times(2, s) == 2 * s && Times(3, s) == 3 * s
    ensures Times(6, s) == 6 * s && Times(7, s) == 7 * s
  {
    assert Times(4, s) == 4 * s && Times(5, s) == 5 * s by {
      assert Times(2, s) == Times(1, s) + s;
      assert Times(3, s) == Times(2, s) + s;
      assert Times(4, s) == Times(3, s) + s;
      assert Times(5, s) == Times(4, s) + s;
    }
    assert Times(6, s) == Times(5, s) + s;
  }

  predicate HeldByOneTier(t: TierCidrs, a: nat) {
    var holders := multiset([Contains(t.private, a), Contains(t.secure, a), Contains(t.public, a),
                             Contains(t.management, a)]);
    holders[true] == 1
  }

  /** The tiers of a network are canonical, inside it, and have sizes 1/2, 1/4, 1/8 and 1/8. */
  lemma TiersFit(net: Network)
    requires Canonical(net) && net.prefix + 3 <= net.width
    ensures SplitTiers(net).Ok?
    ensures var t := SplitTiers(net).value;
            && Canonical(t.public) && Canonical(t.private) && Canonical(t.secure) && Canonical(t.management)
            && Within(t.public, net) && Within(t.private, net) && Within(t.secure, net) && Within(t.management, net)
            && 2 * Size(t.private) == 4 * Size(t.secure) == 8 * Size(t.public) == 8 * Size(t.management) == Size(net)
  {
    SplitTiersMatchesEqualSplit(net);
    assert Pow2(1) == 2 && Pow2(2) == 4 && Pow2(3) == 8;
    BlockFits(net, 1, 0);
    BlockFits(net, 2, 2);
    BlockFits(net, 3, 6);
    BlockFits(net, 3, 7);
    TierLayout(net);
  }

  /** Every address of the network lies in exactly one tier; no tier holds an address from outside. */
  lemma TierPartition(net: Network, a: nat)
    requires Canonical(net) && net.prefix + 3 <= net.width
    ensures SplitTiers(net).Ok?
    ensures Contains(net, a) <==> HeldByOneTier(SplitTiers(net).value, a)
    ensures !Contains(net, a) ==>
              var t := SplitTiers(net).value;
              !Contains(t.private, a) && !Contains(t.secure, a) && !Contains(t.public, a) && !Contains(t.management, a)
  {
    TierLayout(net);
    var eighth := Pow2(net.width - net.prefix - 3);
    if Contains(net, a) {
      if a < net.base + 4 * eighth {
      } else if a < net.base + 6 * eighth {
      } else if a < net.base + 7 * eighth {
      }
    }
  }
}
