/** Address blocks, as the `ipnetwork` crate holds them: an address with its host
    bits kept, and a prefix length. Addresses are numbers; masking off the host
    bits is written as a shift, which keeps every step linear. */
module Cidr {

  datatype Family = V4 | V6

  function Width(family: Family): (w: nat)
  {
    if family.V4? then 32 else 128
  }

  /** `x >> n`. */
  function Shr(x: nat, n: nat): (y: nat)
  {
    if n == 0 || x == 0 then x else Shr(x / 2, n - 1)
  }

  /** `x << n`, on unbounded numbers. */
  function Shl(x: nat, n: nat): (y: nat)
    decreases n
  {
    if n == 0 then x else Shl(2 * x, n - 1)
  }

  datatype IpAddress = IpAddress(family: Family, value: nat)

  datatype IpNetwork = IpNetwork(family: Family, value: nat, prefix: nat)

  /** What parsing can produce: the prefix fits the family and so does the address. */
  predicate ValidNetwork(n: IpNetwork)
  {
    n.prefix <= Width(n.family) && Shr(n.value, Width(n.family)) == 0
  }

  type Net = n: IpNetwork | ValidNetwork(n) witness IpNetwork(V4, 0, 0)

  function HostBits(n: IpNetwork): (h: nat)
    requires ValidNetwork(n)
  {
    Width(n.family) - n.prefix
  }

  /** The bits of `x` that the block fixes. */
  function NetworkBits(n: IpNetwork, x: nat): (b: nat)
    requires ValidNetwork(n)
  {
    Shr(x, HostBits(n))
  }

  /** `IpNetwork::network`: the address with its host bits cleared. */
  function NetworkAddress(n: IpNetwork): (a: IpAddress)
    requires ValidNetwork(n)
  {
    IpAddress(n.family, Shl(NetworkBits(n, n.value), HostBits(n)))
  }

  /** `IpNetwork::contains`: same family, same fixed bits. */
  predicate Contains(n: IpNetwork, a: IpAddress)
    requires ValidNetwork(n)
  {
    n.family == a.family && NetworkBits(n, n.value) == NetworkBits(n, a.value)
  }

  /** The gateway's `contains_network`. */
  predicate ContainsNetwork(outer: IpNetwork, inner: IpNetwork)
    requires ValidNetwork(outer) && ValidNetwork(inner)
  {
    outer.family == inner.family && inner.prefix >= outer.prefix && Contains(outer, NetworkAddress(inner))
  }

  /** What `ContainsNetwork` is for, said without prefixes. */
  ghost predicate EveryAddressIn(outer: IpNetwork, inner: IpNetwork)
    requires ValidNetwork(outer) && ValidNetwork(inner)
  {
    forall a: IpAddress :: Contains(inner, a) ==> Contains(outer, a)
  }

  lemma {:induction false} ShrAdds(x: nat, m: nat, n: nat)
    ensures Shr(x, m + n) == Shr(Shr(x, m), n)
  {
    if m > 0 {
      ShrAdds(x / 2, m - 1, n);
    }
  }

  lemma {:induction false} ShlAdds(x: nat, m: nat, n: nat)
    ensures Shl(x, m + n) == Shl(Shl(x, m), n)
    decreases m
  {
    if m > 0 {
      ShlAdds(2 * x, m - 1, n);
    }
  }

  lemma {:induction false} ShlLast(x: nat, n: nat)
    ensures Shl(x, n + 1) == 2 * Shl(x, n)
    decreases n
  {
    if n > 0 {
      ShlLast(2 * x, n - 1);
    }
  }

  lemma {:induction false} ShlMonotone(x: nat, y: nat, n: nat)
    requires x < y
    ensures Shl(x, n) < Shl(y, n)
    decreases n
  {
    if n > 0 {
      ShlMonotone(2 * x, 2 * y, n - 1);
    }
  }

  /** The numbers with the same high bits are one interval. */
  lemma {:induction false} ShrIsInterval(a: nat, q: nat, n: nat)
    ensures Shr(a, n) == q <==> Shl(q, n) <= a < Shl(q + 1, n)
  {
    if n > 0 {
      ShrIsInterval(a / 2, q, n - 1);
      ShlLast(q, n - 1);
      ShlLast(q + 1, n - 1);
    }
  }

  lemma ShrShl(q: nat, n: nat)
    ensures Shr(Shl(q, n), n) == q
  {
    ShlMonotone(q, q + 1, n);
    ShrIsInterval(Shl(q, n), q, n);
  }

  /** Containment by prefix is containment of every address, both ways. */
  lemma ContainsNetworkIsSubset(outer: IpNetwork, inner: IpNetwork)
    requires ValidNetwork(outer) && ValidNetwork(inner)
    ensures ContainsNetwork(outer, inner) <==> EveryAddressIn(outer, inner)
  {
    if ContainsNetwork(outer, inner) {
      forall a: IpAddress | Contains(inner, a) ensures Contains(outer, a) {
        SubsetHoldsAt(outer, inner, a);
      }
    }
    if EveryAddressIn(outer, inner) {
      SubsetForcesPrefix(outer, inner);
    }
  }

  lemma SubsetHoldsAt(outer: IpNetwork, inner: IpNetwork, a: IpAddress)
    requires ValidNetwork(outer) && ValidNetwork(inner)
    requires ContainsNetwork(outer, inner) && Contains(inner, a)
    ensures Contains(outer, a)
  {
    var hi, d := HostBits(inner), inner.prefix - outer.prefix;
    var n := NetworkAddress(inner).value;
    ShrShl(NetworkBits(inner, inner.value), hi);
    ShrAdds(n, hi, d);
    ShrAdds(a.value, hi, d);
    assert HostBits(outer) == hi + d;
  }

  lemma NetworkAddressInside(n: IpNetwork)
    requires ValidNetwork(n)
    ensures Contains(n, NetworkAddress(n))
  {
    ShrShl(NetworkBits(n, n.value), HostBits(n));
  }

  lemma SubsetForcesPrefix(outer: IpNetwork, inner: IpNetwork)
    requires ValidNetwork(outer) && ValidNetwork(inner)
    requires EveryAddressIn(outer, inner)
    ensures ContainsNetwork(outer, inner)
  {
    NetworkAddressInside(inner);
    assert Contains(outer, NetworkAddress(inner));
    if inner.prefix < outer.prefix {
      // Two addresses of the inner block that the outer block tells apart.
      var ho, d := HostBits(outer), outer.prefix - inner.prefix;
      assert HostBits(inner) == ho + d;
      var q := NetworkBits(inner, inner.value);
      var base := Shl(q, d);
      ShlAdds(q, d, ho);
      AdjacentBlocks(q, d, ho);
      ShrShl(base, ho);
      ShrShl(base + 1, ho);
      assert Contains(inner, IpAddress(inner.family, Shl(base, ho)));
      assert Contains(inner, IpAddress(inner.family, Shl(base + 1, ho)));
      assert false;
    }
  }

  lemma AdjacentBlocks(q: nat, d: nat, h: nat)
    requires d > 0
    ensures Shr(Shl(Shl(q, d), h), h + d) == q
    ensures Shr(Shl(Shl(q, d) + 1, h), h + d) == q
  {
    var base := Shl(q, d);
    ShrShl(base, h);
    ShrShl(base + 1, h);
    ShrAdds(Shl(base, h), h, d);
    ShrAdds(Shl(base + 1, h), h, d);
    ShlMonotone(q, q + 1, d);
    ShlLast(q, d - 1);
    ShlLast(q + 1, d - 1);
    ShlMonotone(q, q + 1, d - 1);
    ShrIsInterval(base, q, d);
    ShrIsInterval(base + 1, q, d);
  }

  /** The /32 (or /128) of one address, as `allocate` and `identity_by_ip` write it. */
  function Host(a: IpAddress): (n: IpNetwork)
  {
    IpNetwork(a.family, a.value, Width(a.family))
  }

  lemma HostContained(n: IpNetwork, a: IpAddress)
    requires ValidNetwork(n) && ValidNetwork(Host(a))
    ensures ContainsNetwork(n, Host(a)) <==> Contains(n, a)
  {
    assert HostBits(Host(a)) == 0;
    assert NetworkAddress(Host(a)) == a;
  }

  /** Address blocks nest downwards: what a covering block contains, it contains. */
  lemma ContainsThrough(outer: IpNetwork, inner: IpNetwork, a: IpAddress)
    requires ValidNetwork(outer) && ValidNetwork(inner)
    requires ContainsNetwork(outer, inner) && Contains(inner, a)
    ensures Contains(outer, a)
  {
    ContainsNetworkIsSubset(outer, inner);
  }

  /** `IpNetwork::iter`: the first address of the block and the one after its last. */
  function Bounds(n: IpNetwork): (b: (nat, nat))
    requires ValidNetwork(n)
  {
    var q := NetworkBits(n, n.value);
    (Shl(q, HostBits(n)), Shl(q + 1, HostBits(n)))
  }

  lemma BoundsContain(n: IpNetwork, x: nat)
    requires ValidNetwork(n)
    ensures Bounds(n).0 <= x < Bounds(n).1 <==> Contains(n, IpAddress(n.family, x))
  {
    ShrIsInterval(x, NetworkBits(n, n.value), HostBits(n));
  }

  /** Every address of a valid block is itself valid. */
  lemma InsideIsValid(n: IpNetwork, a: IpAddress)
    requires ValidNetwork(n) && Contains(n, a)
    ensures ValidNetwork(Host(a))
  {
    ShrAdds(a.value, HostBits(n), n.prefix);
    ShrAdds(n.value, HostBits(n), n.prefix);
  }

  /** The block with its host bits cleared, as the kernel keeps it. */
  function Canon(n: Net): (c: Net)
    ensures c.family == n.family && c.prefix == n.prefix
  {
    NetworkAddressInside(n);
    InsideIsValid(n, NetworkAddress(n));
    IpNetwork(n.family, NetworkAddress(n).value, n.prefix)
  }

  lemma CanonTwice(n: Net)
    ensures Canon(Canon(n)) == Canon(n)
  {
    NetworkAddressInside(n);
  }

  lemma HostIsCanon(n: Net)
    requires n.prefix == Width(n.family)
    ensures Canon(n) == n
  {
    assert HostBits(n) == 0;
  }
}
