/** The gateway's side: diff the desired peers against the interface, change the
    interface command by command, and remember the version that was applied. */
module Reconcile {
  import opened Text
  import opened Cidr

  /** A key as its bytes, one character each. */
  type Key = string

  /** One allowed-ip, as text that parses to a block or as text that does not.
      `10.8.1.5` and `10.8.1.5/32` are the same block. */
  datatype AllowedIp = Block(net: Net) | Garbage(text: string)

  /** A peer the control plane wants. */
  datatype Peer = Peer(key: Key, allowed: seq<AllowedIp>, session: nat, expiresAt: int)

  /** A peer as the interface reports it. */
  datatype LivePeer = LivePeer(key: Key, allowed: seq<AllowedIp>)

  datatype ReconcilePlan = ReconcilePlan(add: seq<Peer>, update: seq<Peer>, same: seq<Peer>,
                                         remove: seq<Key>, foreign: seq<Key>)
  {
    function DesiredCount(): (n: nat) {
      |add| + |update| + |same|
    }

    predicate IsNoop() {
      add == [] && update == [] && remove == []
    }
  }

  /** Every allowed-ip inside `range`; anything unreadable is not managed. */
  predicate IsManaged(allowed: seq<AllowedIp>, range: Net)
  {
    allowed != [] && forall a | a in allowed :: a.Block? && ContainsNetwork(range, a.net)
  }

  predicate Removable(allowed: seq<AllowedIp>, managed: Option<Net>)
  {
    managed.Some? && IsManaged(allowed, managed.value)
  }

  predicate Readable(allowed: seq<AllowedIp>)
  {
    forall a | a in allowed :: a.Block?
  }

  /** The same set of blocks, both sides readable. */
  predicate SameAllowed(a: seq<AllowedIp>, b: seq<AllowedIp>)
  {
    Readable(a) && Readable(b) && (forall x | x in a :: x in b) && (forall x | x in b :: x in a)
  }

  /** What `wg show` said, by key. */
  type View = map<Key, seq<AllowedIp>>

  /** The last entry for a key wins, as collecting into a map does. */
  function ByKey(live: seq<LivePeer>): (m: View)
  {
    if live == [] then map[]
    else var last := live[|live| - 1]; ByKey(live[..|live| - 1])[last.key := last.allowed]
  }

  datatype Fate = Add | Update | Unchanged

  function FateOf(p: Peer, live: View): (f: Fate)
  {
    if p.key !in live then Add else if SameAllowed(p.allowed, live[p.key]) then Unchanged else Update
  }

  function WithFate(desired: seq<Peer>, live: View, f: Fate): (ps: seq<Peer>)
  {
    if desired == [] then []
    else
      var last := desired[|desired| - 1];
      WithFate(desired[..|desired| - 1], live, f) + if FateOf(last, live) == f then [last] else []
  }

  function Keys(desired: seq<Peer>): (ks: set<Key>)
  {
    set p | p in desired :: p.key
  }

  /** Live keys nobody desires, kept or not by whether they may be removed. */
  function Surplus(live: seq<LivePeer>, desired: set<Key>, managed: Option<Net>, removable: bool): (ks: seq<Key>)
  {
    if live == [] then []
    else
      var last := live[|live| - 1];
      Surplus(live[..|live| - 1], desired, managed, removable)
      + if last.key !in desired && Removable(last.allowed, managed) == removable then [last.key] else []
  }

  function PlanOf(desired: seq<Peer>, live: seq<LivePeer>, managed: Option<Net>): (plan: ReconcilePlan)
  {
    var wire := ByKey(live);
    ReconcilePlan(WithFate(desired, wire, Add), WithFate(desired, wire, Update), WithFate(desired, wire, Unchanged),
                  Surplus(live, Keys(desired), managed, true), Surplus(live, Keys(desired), managed, false))
  }

  method Index(live: seq<LivePeer>) returns (liveByKey: View)
    ensures liveByKey == ByKey(live)
  {
    liveByKey := map[];
    for i := 0 to |live|
      invariant liveByKey == ByKey(live[..i])
    {
      assert live[..i + 1][..i] == live[..i];
      liveByKey := liveByKey[live[i].key := live[i].allowed];
    }
    assert live[..|live|] == live;
  }

  lemma FateStep(desired: seq<Peer>, i: nat, wire: View, f: Fate)
    requires i < |desired|
    ensures WithFate(desired[..i + 1], wire, f)
            == WithFate(desired[..i], wire, f) + if FateOf(desired[i], wire) == f then [desired[i]] else []
  {
    assert desired[..i + 1][..i] == desired[..i];
  }

  method Plan(desired: seq<Peer>, live: seq<LivePeer>, managed: Option<Net>) returns (plan: ReconcilePlan)
    ensures plan == PlanOf(desired, live, managed)
  {
    var liveByKey := Index(live);
    var add, update, same: seq<Peer> := [], [], [];
    for i := 0 to |desired|
      invariant add == WithFate(desired[..i], liveByKey, Add)
      invariant update == WithFate(desired[..i], liveByKey, Update)
      invariant same == WithFate(desired[..i], liveByKey, Unchanged)
    {
      var peer := desired[i];
      FateStep(desired, i, liveByKey, Add);
      FateStep(desired, i, liveByKey, Update);
      FateStep(desired, i, liveByKey, Unchanged);
      if peer.key !in liveByKey {
        add := add + [peer];
      } else if SameAllowed(peer.allowed, liveByKey[peer.key]) {
        same := same + [peer];
      } else {
        update := update + [peer];
      }
    }
    assert desired[..|desired|] == desired;
    var remove, foreign := SplitSurplus(live, Keys(desired), managed);
    plan := ReconcilePlan(add, update, same, remove, foreign);
  }

  method SplitSurplus(live: seq<LivePeer>, desiredKeys: set<Key>, managed: Option<Net>) returns (remove: seq<Key>, foreign: seq<Key>)
    ensures remove == Surplus(live, desiredKeys, managed, true)
    ensures foreign == Surplus(live, desiredKeys, managed, false)
  {
    remove, foreign := [], [];
    for i := 0 to |live|
      invariant remove == Surplus(live[..i], desiredKeys, managed, true)
      invariant foreign == Surplus(live[..i], desiredKeys, managed, false)
    {
      assert live[..i + 1][..i] == live[..i];
      if live[i].key in desiredKeys {
        continue;
      }
      if managed.Some? && IsManaged(live[i].allowed, managed.value) {
        remove := remove + [live[i].key];
      } else {
        foreign := foreign + [live[i].key];
      }
    }
    assert live[..|live|] == live;
  }

  // ---- Every peer lands in exactly one place ----

  lemma {:induction false} WithFateMembers(desired: seq<Peer>, live: View, f: Fate)
    ensures forall p :: p in WithFate(desired, live, f) <==> p in desired && FateOf(p, live) == f
  {
    if desired != [] {
      var n := |desired| - 1;
      WithFateMembers(desired[..n], live, f);
      assert desired == desired[..n] + [desired[n]];
    }
  }

  lemma {:induction false} SurplusMembers(live: seq<LivePeer>, desired: set<Key>, managed: Option<Net>, removable: bool)
    ensures forall k :: k in Surplus(live, desired, managed, removable)
                        <==> k !in desired && exists p | p in live :: p.key == k && Removable(p.allowed, managed) == removable
  {
    if live != [] {
      var n := |live| - 1;
      SurplusMembers(live[..n], desired, managed, removable);
      assert live == live[..n] + [live[n]];
    }
  }

  lemma FateAdds(desired: seq<Peer>, live: View, f: Fate)
    requires desired != []
    ensures var before, last := desired[..|desired| - 1], desired[|desired| - 1];
            multiset(WithFate(desired, live, f))
            == multiset(WithFate(before, live, f)) + if FateOf(last, live) == f then multiset{last} else multiset{}
  {
    var last := desired[|desired| - 1];
    MultisetOfStep(WithFate(desired[..|desired| - 1], live, f), last, FateOf(last, live) == f);
  }

  lemma SumsStep<T>(a: multiset<T>, b: multiset<T>, c: multiset<T>, x: T, f: Fate)
    ensures (a + if f == Add then multiset{x} else multiset{}) + (b + if f == Update then multiset{x} else multiset{})
            + (c + if f == Unchanged then multiset{x} else multiset{}) == a + b + c + multiset{x}
  {
  }

  lemma {:induction false} FatesPartition(desired: seq<Peer>, live: View)
    ensures multiset(WithFate(desired, live, Add)) + multiset(WithFate(desired, live, Update))
            + multiset(WithFate(desired, live, Unchanged)) == multiset(desired)
  {
    if desired != [] {
      var n := |desired| - 1;
      var before, last := desired[..n], desired[n];
      FatesPartition(before, live);
      assert multiset(desired) == multiset(before) + multiset{last} by {
        assert desired == before + [last];
      }
      FateAdds(desired, live, Add);
      FateAdds(desired, live, Update);
      FateAdds(desired, live, Unchanged);
      SumsStep(multiset(WithFate(before, live, Add)), multiset(WithFate(before, live, Update)),
               multiset(WithFate(before, live, Unchanged)), last, FateOf(last, live));
    }
  }

  lemma MultisetOfStep<T>(s: seq<T>, x: T, added: bool)
    ensures multiset(s + if added then [x] else []) == multiset(s) + if added then multiset{x} else multiset{}
  {
  }

  /** The keys of live peers nobody desires. */
  function UndesiredKeys(live: seq<LivePeer>, desired: set<Key>): (ks: seq<Key>)
  {
    if live == [] then []
    else
      var last := live[|live| - 1];
      UndesiredKeys(live[..|live| - 1], desired) + if last.key in desired then [] else [last.key]
  }

  lemma {:induction false} SurplusPartition(live: seq<LivePeer>, desired: set<Key>, managed: Option<Net>)
    ensures multiset(Surplus(live, desired, managed, true)) + multiset(Surplus(live, desired, managed, false))
            == multiset(UndesiredKeys(live, desired))
  {
    if live != [] {
      SurplusPartition(live[..|live| - 1], desired, managed);
    }
  }

  /** Counted with repetition, each desired peer is in one of add, update and
      same, and each live key is desired or in one of remove and foreign. */
  lemma PlanPartitions(desired: seq<Peer>, live: seq<LivePeer>, managed: Option<Net>)
    ensures var plan := PlanOf(desired, live, managed);
            && multiset(plan.add) + multiset(plan.update) + multiset(plan.same) == multiset(desired)
            && multiset(plan.remove) + multiset(plan.foreign) == multiset(UndesiredKeys(live, Keys(desired)))
            && plan.DesiredCount() == |desired|
  {
    var plan := PlanOf(desired, live, managed);
    FatesPartition(desired, ByKey(live));
    SurplusPartition(live, Keys(desired), managed);
    assert |multiset(desired)| == |multiset(plan.add)| + |multiset(plan.update)| + |multiset(plan.same)|;
  }

  // ---- The interface ----

  /** Peers, and which of them each block of addresses is routed to. A block has
      one owner: giving it to a peer takes it from whoever had it. */
  datatype Interface = Interface(peers: set<Key>, owner: map<Net, Key>)
  {
    ghost predicate Valid(isKey: Key -> bool) {
      && (forall k | k in peers :: isKey(k))
      && forall b | b in owner :: owner[b] in peers && Canon(b) == b
    }
  }

  function Owned(w: Interface, k: Key): (blocks: set<Net>)
    ensures forall b :: b in blocks <==> b in w.owner && w.owner[b] == k
  {
    set b | b in w.owner && w.owner[b] == k
  }

  /** The blocks some allowed-ips stand for. */
  function Blocks(allowed: seq<AllowedIp>): (blocks: set<Net>)
  {
    set a | a in allowed && a.Block? :: Canon(a.net)
  }

  function AllBlocks(ps: seq<Peer>): (blocks: set<Net>)
  {
    if ps == [] then {} else AllBlocks(ps[..|ps| - 1]) + Blocks(ps[|ps| - 1].allowed)
  }

  datatype Command = SetPeer(key: Key, allowed: seq<AllowedIp>) | RemovePeer(key: Key)

  /** What `wg` takes: a key that is one, and allowed-ips that parse. */
  predicate Accepts(isKey: Key -> bool, c: Command)
  {
    isKey(c.key) && (c.SetPeer? ==> Readable(c.allowed))
  }

  /** `wg set`: a peer's allowed-ips are replaced, taken from their owners, or the
      peer is gone. */
  function Exec1(w: Interface, c: Command): (w': Interface)
  {
    match c
    case SetPeer(k, allowed) =>
      var mine := Blocks(allowed);
      Interface(w.peers + {k},
                map b | b in w.owner.Keys + mine && (b in mine || w.owner[b] != k) :: if b in mine then k else w.owner[b])
    case RemovePeer(k) => Interface(w.peers - {k}, map b | b in w.owner && w.owner[b] != k :: w.owner[b])
  }

  function Exec(w: Interface, cs: seq<Command>): (w': Interface)
    decreases |cs|
  {
    if cs == [] then w else Exec(Exec1(w, cs[0]), cs[1..])
  }

  lemma SetGives(w: Interface, k: Key, allowed: seq<AllowedIp>)
    ensures var w' := Exec1(w, SetPeer(k, allowed));
            Owned(w', k) == Blocks(allowed) && forall j | j != k :: Owned(w', j) == Owned(w, j) - Blocks(allowed)
  {
  }

  lemma RemoveTakes(w: Interface, k: Key)
    ensures var w' := Exec1(w, RemovePeer(k));
            Owned(w', k) == {} && forall j | j != k :: Owned(w', j) == Owned(w, j)
  {
  }

  lemma BlocksAreCanon(allowed: seq<AllowedIp>)
    ensures forall b | b in Blocks(allowed) :: Canon(b) == b
  {
    forall b | b in Blocks(allowed) ensures Canon(b) == b {
      var a :| a in allowed && a.Block? && Canon(a.net) == b;
      CanonTwice(a.net);
    }
  }

  lemma Exec1Valid(isKey: Key -> bool, w: Interface, c: Command)
    requires w.Valid(isKey) && Accepts(isKey, c)
    ensures Exec1(w, c).Valid(isKey)
  {
    if c.SetPeer? {
      BlocksAreCanon(c.allowed);
    }
  }

  lemma {:induction false} ExecValid(isKey: Key -> bool, w: Interface, cs: seq<Command>)
    requires w.Valid(isKey) && forall c | c in cs :: Accepts(isKey, c)
    ensures Exec(w, cs).Valid(isKey)
    decreases |cs|
  {
    if cs != [] {
      Exec1Valid(isKey, w, cs[0]);
      ExecValid(isKey, Exec1(w, cs[0]), cs[1..]);
    }
  }

  lemma {:induction false} ExecAdds(w: Interface, a: seq<Command>, b: seq<Command>)
    ensures Exec(w, a + b) == Exec(Exec(w, a), b)
    decreases |a|
  {
    if a == [] {
      assert a + b == b;
    } else {
      assert (a + b)[1..] == a[1..] + b;
      ExecAdds(Exec1(w, a[0]), a[1..], b);
    }
  }

  lemma ExecLast(w: Interface, cs: seq<Command>, c: Command)
    ensures Exec(w, cs + [c]) == Exec1(Exec(w, cs), c)
  {
    ExecAdds(w, cs, [c]);
    assert Exec(Exec(w, cs), [c]) == Exec(Exec1(Exec(w, cs), c), []);
  }

  function Sets(ps: seq<Peer>): (cs: seq<Command>)
    ensures |cs| == |ps|
    ensures forall i | 0 <= i < |ps| :: cs[i] == SetPeer(ps[i].key, ps[i].allowed)
  {
    seq(|ps|, i requires 0 <= i < |ps| => SetPeer(ps[i].key, ps[i].allowed))
  }

  function Removes(ks: seq<Key>): (cs: seq<Command>)
    ensures |cs| == |ks|
    ensures forall i | 0 <= i < |ks| :: cs[i] == RemovePeer(ks[i])
  {
    seq(|ks|, i requires 0 <= i < |ks| => RemovePeer(ks[i]))
  }

  /** Additions and updates, then removals. */
  function Commands(plan: ReconcilePlan): (cs: seq<Command>)
  {
    Sets(plan.add + plan.update) + Removes(plan.remove)
  }

  // ---- What running a plan leaves ----

  /** Peers with different keys ask for different blocks. */
  predicate Exclusive(ps: seq<Peer>)
  {
    forall p, q | p in ps && q in ps && p.key != q.key :: Blocks(p.allowed) !! Blocks(q.allowed)
  }

  lemma {:induction false} AllBlocksMembers(ps: seq<Peer>)
    ensures forall b :: b in AllBlocks(ps) <==> exists p | p in ps :: b in Blocks(p.allowed)
  {
    if ps != [] {
      AllBlocksMembers(ps[..|ps| - 1]);
      assert ps == ps[..|ps| - 1] + [ps[|ps| - 1]];
    }
  }

  lemma {:induction false} SetsRun(w: Interface, ps: seq<Peer>)
    ensures var w' := Exec(w, Sets(ps));
            w'.peers == w.peers + Keys(ps) && forall k | k !in Keys(ps) :: Owned(w', k) == Owned(w, k) - AllBlocks(ps)
    decreases |ps|
  {
    if ps != [] {
      var before, last := ps[..|ps| - 1], ps[|ps| - 1];
      SplitLast(ps);
      SetsRun(w, before);
      ExecLast(w, Sets(before), SetPeer(last.key, last.allowed));
      SetGives(Exec(w, Sets(before)), last.key, last.allowed);
    }
  }

  lemma SplitLast(ps: seq<Peer>)
    requires ps != []
    ensures var before, last := ps[..|ps| - 1], ps[|ps| - 1];
            ps == before + [last] && Sets(ps) == Sets(before) + [SetPeer(last.key, last.allowed)]
            && Keys(ps) == Keys(before) + {last.key}
  {
    var before, last := ps[..|ps| - 1], ps[|ps| - 1];
    assert ps == before + [last];
    assert Sets(ps) == Sets(before) + [SetPeer(last.key, last.allowed)];
  }

  /** A key that was set holds what some peer with it asked for: nobody else's
      command takes from it. */
  lemma {:induction false} SetsGive(w: Interface, ps: seq<Peer>, k: Key) returns (q: Peer)
    requires Exclusive(ps) && k in Keys(ps)
    ensures q in ps && q.key == k && Owned(Exec(w, Sets(ps)), k) == Blocks(q.allowed)
    decreases |ps|
  {
    hide Exec1, Blocks;
    var before, last := ps[..|ps| - 1], ps[|ps| - 1];
    SplitLast(ps);
    ExecLast(w, Sets(before), SetPeer(last.key, last.allowed));
    SetGives(Exec(w, Sets(before)), last.key, last.allowed);
    if k == last.key {
      q := last;
    } else {
      q := SetsGive(w, before, k);
      assert last in ps && q in ps;
    }
  }

  lemma {:induction false} RemovesRun(w: Interface, ks: seq<Key>)
    ensures var w' := Exec(w, Removes(ks));
            w'.peers == w.peers - (set k | k in ks) && forall k | k !in ks :: Owned(w', k) == Owned(w, k)
    decreases |ks|
  {
    if ks != [] {
      assert Removes(ks)[1..] == Removes(ks[1..]);
      RemoveTakes(w, ks[0]);
      RemovesRun(Exec1(w, RemovePeer(ks[0])), ks[1..]);
      assert (set k | k in ks) == {ks[0]} + set k | k in ks[1..];
    }
  }

  /** `live` lists the peers of `w`, each once, in some order, and the blocks of
      each in some order. */
  ghost predicate IsDump(live: seq<LivePeer>, w: Interface)
  {
    && (forall i, j | 0 <= i < j < |live| :: live[i].key != live[j].key)
    && (forall p | p in live :: p.key in w.peers && Lists(p.allowed, Owned(w, p.key)))
    && (forall k | k in w.peers :: exists p | p in live :: p.key == k)
  }

  ghost predicate Lists(allowed: seq<AllowedIp>, blocks: set<Net>)
  {
    forall x :: x in allowed <==> x.Block? && x.net in blocks
  }

  lemma {:induction false} ByKeyMembers(live: seq<LivePeer>)
    requires forall i, j | 0 <= i < j < |live| :: live[i].key != live[j].key
    ensures forall p | p in live :: p.key in ByKey(live) && ByKey(live)[p.key] == p.allowed
    ensures forall k | k in ByKey(live) :: LivePeer(k, ByKey(live)[k]) in live
  {
    if live != [] {
      var n := |live| - 1;
      ByKeyMembers(live[..n]);
      assert live == live[..n] + [live[n]];
      forall p | p in live ensures p.key in ByKey(live) && ByKey(live)[p.key] == p.allowed {
        if p != live[n] {
          var i :| 0 <= i < |live| && live[i] == p;
          assert live[i].key != live[n].key;
          assert p in live[..n];
        }
      }
    }
  }

  lemma DumpIsWire(live: seq<LivePeer>, w: Interface)
    requires IsDump(live, w)
    ensures ByKey(live).Keys == w.peers && forall k | k in w.peers :: Lists(ByKey(live)[k], Owned(w, k))
  {
    ByKeyMembers(live);
    forall k | k in w.peers ensures k in ByKey(live) {
      var p :| p in live && p.key == k;
    }
  }

  /** What `IsManaged` says of a listed peer, said of the interface. */
  predicate OwnsManaged(w: Interface, k: Key, managed: Option<Net>)
  {
    AllManaged(Owned(w, k), managed)
  }

  predicate AllManaged(blocks: set<Net>, managed: Option<Net>)
  {
    managed.Some? && blocks != {} && forall b | b in blocks :: ContainsNetwork(managed.value, b)
  }

  lemma ListedIsManaged(w: Interface, k: Key, allowed: seq<AllowedIp>, managed: Option<Net>)
    requires Lists(allowed, Owned(w, k))
    ensures Removable(allowed, managed) <==> OwnsManaged(w, k, managed)
  {
    if managed.Some? {
      if Owned(w, k) != {} {
        var b :| b in Owned(w, k);
        assert Block(b) in allowed;
      }
      if OwnsManaged(w, k, managed) {
        assert forall a | a in allowed :: a.net in Owned(w, k);
      }
      if Removable(allowed, managed) {
        assert allowed[0] in allowed;
        forall b | b in Owned(w, k) ensures ContainsNetwork(managed.value, b) {
          assert Block(b) in allowed;
        }
      }
    }
  }

  lemma SurplusOfDump(live: seq<LivePeer>, w: Interface, desired: set<Key>, managed: Option<Net>)
    requires IsDump(live, w)
    ensures forall k :: k in Surplus(live, desired, managed, true)
                        <==> k !in desired && k in w.peers && OwnsManaged(w, k, managed)
  {
    SurplusMembers(live, desired, managed, true);
    forall k ensures k in Surplus(live, desired, managed, true) <==> k !in desired && k in w.peers && OwnsManaged(w, k, managed) {
      forall p | p in live && p.key == k ensures Removable(p.allowed, managed) <==> OwnsManaged(w, k, managed) {
        ListedIsManaged(w, k, p.allowed, managed);
      }
    }
  }

  /** What the commands of a plan are for: a desired peer that is not already as
      it should be, or a managed key nobody wants. */
  lemma PlanMembers(desired: seq<Peer>, live: seq<LivePeer>, w: Interface, managed: Option<Net>)
    requires IsDump(live, w)
    ensures var plan := PlanOf(desired, live, managed);
            && (forall p :: p in plan.add + plan.update <==> p in desired && FateOf(p, ByKey(live)) != Unchanged)
            && (forall k :: k in plan.remove <==> k !in Keys(desired) && k in w.peers && OwnsManaged(w, k, managed))
  {
    WithFateMembers(desired, ByKey(live), Add);
    WithFateMembers(desired, ByKey(live), Update);
    SurplusOfDump(live, w, Keys(desired), managed);
  }

  /** An unchanged peer holds exactly what it asks for. */
  lemma UnchangedOwns(p: Peer, live: seq<LivePeer>, w: Interface)
    requires IsDump(live, w) && FateOf(p, ByKey(live)) == Unchanged && forall b | b in w.owner :: Canon(b) == b
    ensures p.key in w.peers && Owned(w, p.key) == Blocks(p.allowed)
    ensures forall a | a in p.allowed :: a.Block? && Canon(a.net) == a.net
  {
    DumpIsWire(live, w);
    var listed := ByKey(live)[p.key];
    forall b | b in Owned(w, p.key) ensures b in Blocks(p.allowed) {
      assert Block(b) in listed;
      assert Block(b) in p.allowed;
    }
    forall b | b in Blocks(p.allowed) ensures b in Owned(w, p.key) {
      var a :| a in p.allowed && a.Block? && Canon(a.net) == b;
      assert a in listed && a.net in Owned(w, p.key);
    }
  }

  /** What the interface holds once a plan for it has run. */
  ghost predicate Reconciled(w: Interface, w': Interface, desired: seq<Peer>, managed: Option<Net>, taken: set<Net>)
  {
    // Every desired key is there, and holds what a desired peer with it asked for.
    && (forall k | k in Keys(desired) ::
          k in w'.peers && (Exclusive(desired) ==> exists q | q in desired :: q.key == k && Owned(w', k) == Blocks(q.allowed)))
    // Any other key is gone if it was managed, and else loses only what was given away.
    && (forall k | k !in Keys(desired) ::
          && (k in w'.peers <==> k in w.peers && !OwnsManaged(w, k, managed))
          && (k in w'.peers ==> Owned(w', k) == Owned(w, k) - taken))
  }

  function Changed(plan: ReconcilePlan): (ps: seq<Peer>)
  {
    plan.add + plan.update
  }

  lemma PlanRuns(desired: seq<Peer>, live: seq<LivePeer>, w: Interface, managed: Option<Net>)
    requires IsDump(live, w)
    ensures var plan := PlanOf(desired, live, managed);
            var w1, w' := Exec(w, Sets(Changed(plan))), Exec(w, Commands(plan));
            && w'.peers == w1.peers - (set k | k in plan.remove)
            && forall k | k !in plan.remove :: Owned(w', k) == Owned(w1, k)
  {
    var plan := PlanOf(desired, live, managed);
    ExecAdds(w, Sets(Changed(plan)), Removes(plan.remove));
    RemovesRun(Exec(w, Sets(Changed(plan))), plan.remove);
  }

  lemma PlanGives(desired: seq<Peer>, live: seq<LivePeer>, w: Interface, managed: Option<Net>, k: Key) returns (q: Peer)
    requires IsDump(live, w) && Exclusive(desired) && k in Keys(desired) && forall b | b in w.owner :: Canon(b) == b
    ensures q in desired && q.key == k && Owned(Exec(w, Commands(PlanOf(desired, live, managed))), k) == Blocks(q.allowed)
  {
    var plan := PlanOf(desired, live, managed);
    var changed := Changed(plan);
    PlanMembers(desired, live, w, managed);
    PlanRuns(desired, live, w, managed);
    if k in Keys(changed) {
      q := SetsGive(w, changed, k);
    } else {
      q :| q in desired && q.key == k;
      assert q !in changed;
      UnchangedOwns(q, live, w);
      SetsRun(w, changed);
      AllBlocksMembers(changed);
      assert Blocks(q.allowed) !! AllBlocks(changed);
    }
  }

  /** Running a plan leaves what it is for. The interface may have been anything;
      what foreign peers lose is what desired peers asked for. */
  lemma PlanReconciles(desired: seq<Peer>, live: seq<LivePeer>, w: Interface, managed: Option<Net>)
    requires IsDump(live, w) && forall b | b in w.owner :: Canon(b) == b
    ensures var plan := PlanOf(desired, live, managed);
            Reconciled(w, Exec(w, Commands(plan)), desired, managed, AllBlocks(Changed(plan)))
  {
    var plan := PlanOf(desired, live, managed);
    var w' := Exec(w, Commands(plan));
    PlanMembers(desired, live, w, managed);
    PlanRuns(desired, live, w, managed);
    SetsRun(w, Changed(plan));
    forall k | k in Keys(desired)
      ensures k in w'.peers && (Exclusive(desired) ==> exists q | q in desired :: q.key == k && Owned(w', k) == Blocks(q.allowed))
    {
      DesiredStays(desired, live, w, managed, k);
      if Exclusive(desired) {
        var q := PlanGives(desired, live, w, managed, k);
      }
    }
  }

  lemma DesiredStays(desired: seq<Peer>, live: seq<LivePeer>, w: Interface, managed: Option<Net>, k: Key)
    requires IsDump(live, w) && k in Keys(desired)
    ensures k in Exec(w, Commands(PlanOf(desired, live, managed))).peers
  {
    var plan := PlanOf(desired, live, managed);
    PlanMembers(desired, live, w, managed);
    PlanRuns(desired, live, w, managed);
    SetsRun(w, Changed(plan));
    if k !in w.peers {
      var p :| p in desired && p.key == k;
      DumpIsWire(live, w);
      assert p in Changed(plan);
    }
  }

  // ---- Convergence ----

  /** What convergence asks of the desired peers: keys `wg` takes, allowed-ips as
      the kernel will list them, the same ones for peers that share a key, and no
      block asked for under two keys. */
  predicate Consistent(isKey: Key -> bool, desired: seq<Peer>)
  {
    && (forall p | p in desired :: isKey(p.key) && AsListed(p.allowed))
    && Exclusive(desired)
    && forall p, q | p in desired && q in desired && p.key == q.key :: Blocks(p.allowed) == Blocks(q.allowed)
  }

  predicate AsListed(allowed: seq<AllowedIp>)
  {
    forall a | a in allowed :: a.Block? && Canon(a.net) == a.net
  }

  /** Whether giving the desired peers their blocks leaves a kept peer with managed
      ones only, so that the next plan would remove it. */
  ghost predicate Uncovers(w: Interface, desired: seq<Peer>, managed: Option<Net>)
  {
    exists k | k in w.peers ::
      k !in Keys(desired) && !OwnsManaged(w, k, managed) && AllManaged(Owned(w, k) - AllBlocks(desired), managed)
  }

  lemma AsListedIsSame(allowed: seq<AllowedIp>, listed: seq<AllowedIp>, blocks: set<Net>)
    requires Lists(listed, blocks) && forall b | b in blocks :: Canon(b) == b
    ensures SameAllowed(allowed, listed) <==> AsListed(allowed) && Blocks(allowed) == blocks
  {
    if SameAllowed(allowed, listed) {
      forall b | b in blocks ensures b in Blocks(allowed) {
        assert Block(b) in listed;
        assert Block(b) in allowed;
      }
    }
    if AsListed(allowed) && Blocks(allowed) == blocks {
      forall x | x in allowed ensures x in listed {
        assert Canon(x.net) in Blocks(allowed);
      }
      forall x | x in listed ensures x in allowed {
        var a :| a in allowed && a.Block? && Canon(a.net) == x.net;
        assert a == x;
      }
    }
  }

  /** The fate of a peer, said of the interface that was listed. */
  lemma UnchangedExactly(p: Peer, live: seq<LivePeer>, w: Interface)
    requires IsDump(live, w) && forall b | b in w.owner :: Canon(b) == b
    ensures FateOf(p, ByKey(live)) == Unchanged <==> p.key in w.peers && AsListed(p.allowed) && Owned(w, p.key) == Blocks(p.allowed)
  {
    DumpIsWire(live, w);
    if p.key in w.peers {
      AsListedIsSame(p.allowed, ByKey(live)[p.key], Owned(w, p.key));
    }
  }

  /** A plan is a no-op exactly when every desired peer is as it should be and no
      other key is managed. */
  lemma NoopExactly(desired: seq<Peer>, live: seq<LivePeer>, w: Interface, managed: Option<Net>)
    requires IsDump(live, w) && forall b | b in w.owner :: Canon(b) == b
    ensures PlanOf(desired, live, managed).IsNoop()
            <==> (forall p | p in desired :: p.key in w.peers && AsListed(p.allowed) && Owned(w, p.key) == Blocks(p.allowed))
                 && forall k | k in w.peers && k !in Keys(desired) :: !OwnsManaged(w, k, managed)
  {
    var plan := PlanOf(desired, live, managed);
    PlanMembers(desired, live, w, managed);
    EmptyIfNone(plan.add + plan.update);
    EmptyIfNone(plan.remove);
    forall p | p in desired
      ensures FateOf(p, ByKey(live)) == Unchanged <==> p.key in w.peers && AsListed(p.allowed) && Owned(w, p.key) == Blocks(p.allowed)
    {
      UnchangedExactly(p, live, w);
    }
  }

  lemma EmptyIfNone<T>(s: seq<T>)
    ensures s == [] <==> forall x :: x !in s
  {
    assert s == [] || s[0] in s;
  }

  /** Kept peers lose the same blocks whether or not unchanged peers are counted:
      those own theirs already. */
  lemma SameLoss(desired: seq<Peer>, live: seq<LivePeer>, w: Interface, managed: Option<Net>, k: Key)
    requires IsDump(live, w) && k !in Keys(desired) && forall b | b in w.owner :: Canon(b) == b
    ensures Owned(w, k) - AllBlocks(Changed(PlanOf(desired, live, managed))) == Owned(w, k) - AllBlocks(desired)
  {
    var changed := Changed(PlanOf(desired, live, managed));
    PlanMembers(desired, live, w, managed);
    AllBlocksMembers(desired);
    AllBlocksMembers(changed);
    forall b | b in Owned(w, k) && b in AllBlocks(desired) ensures b in AllBlocks(changed) {
      var p :| p in desired && b in Blocks(p.allowed);
      if p !in changed {
        UnchangedOwns(p, live, w);
      }
    }
  }

  /** Every command of a plan is taken exactly when every desired peer has a key
      `wg` takes and readable allowed-ips. */
  lemma AcceptedExactly(isKey: Key -> bool, desired: seq<Peer>, live: seq<LivePeer>, w: Interface, managed: Option<Net>)
    requires IsDump(live, w) && w.Valid(isKey)
    ensures (forall c | c in Commands(PlanOf(desired, live, managed)) :: Accepts(isKey, c))
            <==> forall p | p in desired :: isKey(p.key) && Readable(p.allowed)
  {
    var plan := PlanOf(desired, live, managed);
    var cs := Commands(plan);
    PlanMembers(desired, live, w, managed);
    CommandMembers(plan);
    if forall c | c in cs :: Accepts(isKey, c) {
      forall p | p in desired ensures isKey(p.key) && Readable(p.allowed) {
        if p in Changed(plan) {
          assert SetPeer(p.key, p.allowed) in cs;
        } else {
          UnchangedOwns(p, live, w);
        }
      }
    }
  }

  lemma CommandMembers(plan: ReconcilePlan)
    ensures forall c :: c in Commands(plan)
                        <==> (exists p | p in Changed(plan) :: c == SetPeer(p.key, p.allowed)) || (c.RemovePeer? && c.key in plan.remove)
  {
    var sets, removes := Sets(Changed(plan)), Removes(plan.remove);
    forall c ensures c in sets <==> exists p | p in Changed(plan) :: c == SetPeer(p.key, p.allowed) {
      if c in sets {
        var i :| 0 <= i < |sets| && sets[i] == c;
        assert Changed(plan)[i] in Changed(plan);
      }
      if p :| p in Changed(plan) && c == SetPeer(p.key, p.allowed) {
        var i :| 0 <= i < |Changed(plan)| && Changed(plan)[i] == p;
        assert sets[i] == c;
      }
    }
    forall c ensures c in removes <==> c.RemovePeer? && c.key in plan.remove {
      if c in removes {
        var i :| 0 <= i < |removes| && removes[i] == c;
      }
      if c.RemovePeer? && c.key in plan.remove {
        var i :| 0 <= i < |plan.remove| && plan.remove[i] == c.key;
        assert removes[i] == c;
      }
    }
    assert forall c :: c in Commands(plan) <==> c in sets || c in removes;
  }

  /** A plan runs to its end, and planning again is a no-op, exactly when the
      desired peers are consistent and no kept peer is uncovered. */
  lemma ConvergesExactly(isKey: Key -> bool, desired: seq<Peer>, live: seq<LivePeer>, w: Interface, managed: Option<Net>,
                         again: seq<LivePeer>)
    requires IsDump(live, w) && w.Valid(isKey)
    requires IsDump(again, Exec(w, Commands(PlanOf(desired, live, managed))))
    ensures (forall c | c in Commands(PlanOf(desired, live, managed)) :: Accepts(isKey, c)) && PlanOf(desired, again, managed).IsNoop()
            <==> Consistent(isKey, desired) && !Uncovers(w, desired, managed)
  {
    hide IsDump, PlanOf, Commands, Exec;
    var cs := Commands(PlanOf(desired, live, managed));
    var w' := Exec(w, cs);
    AcceptedExactly(isKey, desired, live, w, managed);
    if forall c | c in cs :: Accepts(isKey, c) {
      ExecValid(isKey, w, cs);
      PlanReconciles(desired, live, w, managed);
      NoopExactly(desired, again, w', managed);
      SettledExactly(isKey, desired, w', managed);
      KeptExactly(desired, live, w, managed);
    }
  }

  /** The desired half of it. */
  lemma SettledExactly(isKey: Key -> bool, desired: seq<Peer>, w': Interface, managed: Option<Net>)
    requires forall p | p in desired :: isKey(p.key)
    requires forall k | k in Keys(desired) ::
               k in w'.peers && (Exclusive(desired) ==> exists q | q in desired :: q.key == k && Owned(w', k) == Blocks(q.allowed))
    ensures (forall p | p in desired :: p.key in w'.peers && AsListed(p.allowed) && Owned(w', p.key) == Blocks(p.allowed))
            <==> Consistent(isKey, desired)
  {
    assert forall p | p in desired :: p.key in Keys(desired);
  }

  /** The other half: which kept keys the next plan would remove. */
  lemma KeptExactly(desired: seq<Peer>, live: seq<LivePeer>, w: Interface, managed: Option<Net>)
    requires IsDump(live, w) && forall b | b in w.owner :: Canon(b) == b
    ensures var w' := Exec(w, Commands(PlanOf(desired, live, managed)));
            (forall k | k in w'.peers && k !in Keys(desired) :: !OwnsManaged(w', k, managed)) <==> !Uncovers(w, desired, managed)
  {
    var w' := Exec(w, Commands(PlanOf(desired, live, managed)));
    PlanReconciles(desired, live, w, managed);
    forall k | k !in Keys(desired)
      ensures k in w'.peers ==> Owned(w', k) == Owned(w, k) - AllBlocks(desired)
    {
      SameLoss(desired, live, w, managed, k);
    }
  }

  /** When every desired block is managed no kept peer is uncovered: one that had
      a block outside keeps it. */
  lemma ManagedNeverUncovers(w: Interface, desired: seq<Peer>, managed: Option<Net>)
    requires managed.Some? ==> forall b | b in AllBlocks(desired) :: ContainsNetwork(managed.value, b)
    ensures !Uncovers(w, desired, managed)
  {
  }

  /** What the control plane builds for distinct keys with distinct addresses of the
      managed range converges. */
  lemma IssuedConverge(isKey: Key -> bool, desired: seq<Peer>, live: seq<LivePeer>, w: Interface, managed: Option<Net>,
                       again: seq<LivePeer>)
    requires IsDump(live, w) && w.Valid(isKey)
    requires IsDump(again, Exec(w, Commands(PlanOf(desired, live, managed))))
    requires forall p | p in desired :: isKey(p.key) && |p.allowed| == 1 && p.allowed[0].Block?
                                        && p.allowed[0].net.prefix == Width(p.allowed[0].net.family)
    requires forall p | p in desired :: managed.Some? ==> ContainsNetwork(managed.value, p.allowed[0].net)
    requires forall p, q | p in desired && q in desired :: p.key == q.key <==> p.allowed == q.allowed
    ensures PlanOf(desired, again, managed).IsNoop()
  {
    hide Consistent, Uncovers, IsDump, PlanOf, Commands, Exec, Interface.Valid, Contains, ReconcilePlan.IsNoop;
    IssuedConsistent(isKey, desired);
    IssuedInside(desired, managed);
    ManagedNeverUncovers(w, desired, managed);
    ConvergesExactly(isKey, desired, live, w, managed, again);
  }

  lemma IssuedBlock(p: Peer)
    requires |p.allowed| == 1 && p.allowed[0].Block? && p.allowed[0].net.prefix == Width(p.allowed[0].net.family)
    ensures Blocks(p.allowed) == {p.allowed[0].net} && AsListed(p.allowed)
  {
    assert p.allowed == [Block(p.allowed[0].net)];
    OneBlock(p.allowed[0].net);
  }

  lemma IssuedConsistent(isKey: Key -> bool, desired: seq<Peer>)
    requires forall p | p in desired :: isKey(p.key) && |p.allowed| == 1 && p.allowed[0].Block?
                                        && p.allowed[0].net.prefix == Width(p.allowed[0].net.family)
    requires forall p, q | p in desired && q in desired :: p.key == q.key <==> p.allowed == q.allowed
    ensures Consistent(isKey, desired)
  {
    hide Blocks, AsListed;
    forall p | p in desired ensures Blocks(p.allowed) == {p.allowed[0].net} && AsListed(p.allowed) {
      IssuedBlock(p);
    }
    forall p, q | p in desired && q in desired && p.key != q.key ensures Blocks(p.allowed) !! Blocks(q.allowed) {
      assert p.allowed == [Block(p.allowed[0].net)] && q.allowed == [Block(q.allowed[0].net)];
    }
  }

  lemma IssuedInside(desired: seq<Peer>, managed: Option<Net>)
    requires forall p | p in desired :: |p.allowed| == 1 && p.allowed[0].Block?
                                        && p.allowed[0].net.prefix == Width(p.allowed[0].net.family)
    requires forall p | p in desired :: managed.Some? ==> ContainsNetwork(managed.value, p.allowed[0].net)
    ensures managed.Some? ==> forall b | b in AllBlocks(desired) :: ContainsNetwork(managed.value, b)
  {
    hide AllBlocks, Blocks, ContainsNetwork, AsListed;
    AllBlocksMembers(desired);
    forall b | b in AllBlocks(desired) && managed.Some? ensures ContainsNetwork(managed.value, b) {
      var p :| p in desired && b in Blocks(p.allowed);
      IssuedBlock(p);
    }
  }

  // ---- Revocation ----

  /** A live peer holding one address the control plane issued is removed, once
      its key is not desired, exactly when the managed range has that address. */
  lemma IssuedIsRemovedExactly(desired: seq<Peer>, live: seq<LivePeer>, w: Interface, managed: Option<Net>, key: Key, a: IpAddress)
    requires IsDump(live, w) && ValidNetwork(Host(a))
    requires key in w.peers && Owned(w, key) == {Host(a)} && key !in Keys(desired)
    ensures key in PlanOf(desired, live, managed).remove <==> managed.Some? && Contains(managed.value, a)
  {
    SurplusOfDump(live, w, Keys(desired), managed);
    if managed.Some? {
      HostContained(managed.value, a);
    }
  }

  /** A live peer with any allowed address outside the range, or none at all, is
      never removed; nor is a desired one. */
  lemma RemovalNotOverBroad(desired: seq<Peer>, live: seq<LivePeer>, w: Interface, managed: Option<Net>, key: Key)
    requires IsDump(live, w) && key in PlanOf(desired, live, managed).remove
    ensures key !in Keys(desired) && key in w.peers && managed.Some? && Owned(w, key) != {}
    ensures forall b | b in Owned(w, key) :: EveryAddressIn(managed.value, b)
  {
    SurplusOfDump(live, w, Keys(desired), managed);
    forall b | b in Owned(w, key) ensures EveryAddressIn(managed.value, b) {
      ContainsNetworkIsSubset(managed.value, b);
    }
  }

  // ---- One peer at a time ----

  lemma OneDump(a: Key, host: Net)
    ensures IsDump([LivePeer(a, [Block(host)])], Interface({a}, map[host := a]))
  {
    assert [LivePeer(a, [Block(host)])][0] in [LivePeer(a, [Block(host)])];
  }

  lemma OneBlock(host: Net)
    requires host.prefix == Width(host.family)
    ensures Blocks([Block(host)]) == {host} && Canon(host) == host
  {
    HostIsCanon(host);
    assert Block(host) in [Block(host)];
  }

  lemma CutWire(a: Key, b: Key, host: Net)
    requires a != b && host.prefix == Width(host.family)
    ensures var cut := Exec1(Interface({a}, map[host := a]), SetPeer(b, [Block(host)]));
            var again := [LivePeer(a, []), LivePeer(b, [Block(host)])];
            && cut.peers == {a, b} && Owned(cut, a) == {} && Owned(cut, b) == {host} && IsDump(again, cut)
  {
    var w := Interface({a}, map[host := a]);
    OneBlock(host);
    SetGives(w, b, [Block(host)]);
    assert Owned(w, a) == {host};
    var again := [LivePeer(a, []), LivePeer(b, [Block(host)])];
    assert again[0] in again && again[1] in again;
  }

  lemma CutIsNoop(a: Key, p: Peer, host: Net, range: Net)
    requires a != p.key && host.prefix == Width(host.family) && p.allowed == [Block(host)]
    ensures PlanOf([p], [LivePeer(a, []), LivePeer(p.key, [Block(host)])], Some(range)).IsNoop()
  {
    var again := [LivePeer(a, []), LivePeer(p.key, [Block(host)])];
    CutWire(a, p.key, host);
    OneBlock(host);
    NoopExactly([p], again, Exec1(Interface({a}, map[host := a]), SetPeer(p.key, [Block(host)])), Some(range));
    assert Keys([p]) == {p.key} by {
      assert [p][0] in [p];
    }
  }

  lemma OnePlan(p: Peer, a: Key, allowed: seq<AllowedIp>, range: Net)
    requires p.key != a && IsManaged(allowed, range)
    ensures Commands(PlanOf([p], [LivePeer(a, allowed)], Some(range))) == [SetPeer(p.key, p.allowed), RemovePeer(a)]
  {
    var live := [LivePeer(a, allowed)];
    OneView(LivePeer(a, allowed));
    OneFate(p, ByKey(live), Add);
    OneFate(p, ByKey(live), Update);
    assert Keys([p]) == {p.key} by {
      assert [p][0] in [p];
    }
    OneSurplus(LivePeer(a, allowed), Keys([p]), Some(range));
    OneEach(PlanOf([p], live, Some(range)), p, a);
  }

  lemma OneView(l: LivePeer)
    ensures ByKey([l]) == map[l.key := l.allowed]
  {
    assert [l][..0] == [];
  }

  lemma OneFate(p: Peer, view: View, f: Fate)
    ensures WithFate([p], view, f) == if FateOf(p, view) == f then [p] else []
  {
    assert [p][..0] == [];
  }

  lemma OneSurplus(l: LivePeer, desired: set<Key>, managed: Option<Net>)
    requires l.key !in desired && Removable(l.allowed, managed)
    ensures Surplus([l], desired, managed, true) == [l.key]
  {
    assert [l][..0] == [];
  }

  lemma OneEach(plan: ReconcilePlan, p: Peer, a: Key)
    requires plan.add == [p] && plan.update == [] && plan.remove == [a]
    ensures Commands(plan) == [SetPeer(p.key, p.allowed), RemovePeer(a)]
  {
    assert plan.add + plan.update == [p];
    assert Commands(plan) == Sets([p]) + Removes([a]);
  }

  // ---- Applying a configuration ----

  datatype GatewayConfig = GatewayConfig(version: int, expiresAt: int, listenPort: nat, cidr: Option<Net>, peers: seq<Peer>)

  /** The gateway's own file; `cidr` of the network is used when no range is set. */
  datatype Settings = Settings(manageInterface: bool, adoptExisting: bool, managedRange: Option<Net>, privateKey: bool)
  {
    function Managed(cidr: Option<Net>): (range: Option<Net>) {
      if managedRange.Some? then managedRange else cidr
    }
  }

  datatype ApplyError = InvalidPort | MissingKey | MissingAllowed | ExpiredPeer | AdoptedKey | NoInterface | WgFailed

  predicate Acceptable(p: Peer, now: int)
  {
    p.key != "" && p.allowed != [] && now <= p.expiresAt
  }

  function FirstBad(peers: seq<Peer>, now: int): (e: Option<ApplyError>)
    ensures e.None? <==> forall p | p in peers :: Acceptable(p, now)
  {
    if peers == [] then None
    else if peers[0].key == "" then assert peers[0] in peers; Some(MissingKey)
    else if peers[0].allowed == [] then assert peers[0] in peers; Some(MissingAllowed)
    else if now > peers[0].expiresAt then assert peers[0] in peers; Some(ExpiredPeer)
    else
      assert forall p :: p in peers <==> p == peers[0] || p in peers[1..];
      FirstBad(peers[1..], now)
  }

  class WireGuard {
    const isKey: Key -> bool
    var wire: Interface

    constructor (isKey: Key -> bool)
      ensures this.isKey == isKey && wire == Interface({}, map[])
    {
      this.isKey, wire := isKey, Interface({}, map[]);
    }

    method ListBlocks(k: Key) returns (allowed: seq<AllowedIp>)
      ensures Lists(allowed, Owned(wire, k))
    {
      allowed := [];
      var left := Owned(wire, k);
      while left != {}
        invariant left <= Owned(wire, k)
        invariant Lists(allowed, Owned(wire, k) - left)
        decreases left
      {
        var b :| b in left;
        allowed := allowed + [Block(b)];
        left := left - {b};
      }
    }

    /** `wg show`: every peer once, with its blocks, in the order the kernel likes. */
    method Dump() returns (live: seq<LivePeer>)
      ensures IsDump(live, wire)
    {
      live := [];
      var left := wire.peers;
      while left != {}
        invariant left <= wire.peers
        invariant forall i, j | 0 <= i < j < |live| :: live[i].key != live[j].key
        invariant forall p | p in live :: p.key in wire.peers && p.key !in left && Lists(p.allowed, Owned(wire, p.key))
        invariant forall k | k in wire.peers && k !in left :: exists p | p in live :: p.key == k
        decreases left
      {
        var k :| k in left;
        var allowed := ListBlocks(k);
        ghost var before := live;
        live := live + [LivePeer(k, allowed)];
        left := left - {k};
        assert live[|live| - 1] in live && forall p | p in before :: p in live;
      }
    }

    /** One `wg set`, refused for a bad key or text; it may also fail for reasons
        of its own. Either way it then changes nothing. */
    method Run(c: Command, fails: bool) returns (ok: bool)
      modifies this
      ensures ok == (!fails && Accepts(isKey, c)) && wire == if ok then Exec1(old(wire), c) else old(wire)
    {
      ok := !fails && Accepts(isKey, c);
      if ok {
        match c {
          case SetPeer(k, allowed) =>
            var mine := Blocks(allowed);
            wire := Interface(wire.peers + {k}, map b | b in wire.owner && wire.owner[b] != k && b !in mine :: wire.owner[b]);
            wire := wire.(owner := wire.owner + map b | b in mine :: k);
          case RemovePeer(k) =>
            wire := Interface(wire.peers - {k}, map b | b in wire.owner && wire.owner[b] != k :: wire.owner[b]);
        }
      }
    }

    /** Runs commands until one is refused or fails; `fails` says which would. */
    method RunAll(cs: seq<Command>, fails: nat -> bool) returns (done: nat)
      modifies this
      ensures done <= |cs| && (done < |cs| ==> fails(done) || !Accepts(isKey, cs[done]))
      ensures forall i | 0 <= i < done :: !fails(i) && Accepts(isKey, cs[i])
      ensures wire == Exec(old(wire), cs[..done])
    {
      done := 0;
      while done < |cs|
        invariant done <= |cs| && forall i | 0 <= i < done :: !fails(i) && Accepts(isKey, cs[i])
        invariant wire == Exec(old(wire), cs[..done])
      {
        var ok := Run(cs[done], fails(done));
        if !ok {
          return;
        }
        assert cs[..done + 1] == cs[..done] + [cs[done]];
        ExecLast(old(wire), cs[..done], cs[done]);
        done := done + 1;
      }
    }

    /** Applies a configuration; `readable` says whether the interface could be
        listed and `ensured` whether it could be set up. Also returns the view the
        plan was made from. */
    method Apply(s: Settings, config: GatewayConfig, now: int, readable: bool, ensured: bool, fails: nat -> bool)
      returns (r: Result<nat, ApplyError>, live: seq<LivePeer>)
      modifies this
      ensures readable ==> IsDump(live, old(wire))
      ensures !readable ==> live == []
      ensures r.Ok? <==> && config.listenPort != 0 && (forall p | p in config.peers :: Acceptable(p, now))
                         && (s.manageInterface ==>
                               && (if s.adoptExisting then !s.privateKey else ensured)
                               && var cs := Commands(PlanOf(config.peers, live, s.Managed(config.cidr)));
                                  forall i | 0 <= i < |cs| :: !fails(i) && Accepts(isKey, cs[i]))
      ensures r.Ok? ==>
                && r.value == |config.peers|
                && wire == if s.manageInterface then Exec(old(wire), Commands(PlanOf(config.peers, live, s.Managed(config.cidr))))
                           else old(wire)
      // A failed apply has run some of the commands, in order, and no other.
      ensures r.Err? ==> exists n: nat | n <= |Commands(PlanOf(config.peers, live, s.Managed(config.cidr)))| ::
                wire == Exec(old(wire), Commands(PlanOf(config.peers, live, s.Managed(config.cidr)))[..n])
    {
      var listed := Dump();
      live := if readable then listed else [];
      ghost var cs := Commands(PlanOf(config.peers, live, s.Managed(config.cidr)));
      assert cs[..0] == [];
      assert wire == Exec(wire, cs[..0]);
      if config.listenPort == 0 {
        return Err(InvalidPort), live;
      }
      var bad := FirstBad(config.peers, now);
      if bad.Some? {
        return Err(bad.value), live;
      }
      var plan := Plan(config.peers, live, s.Managed(config.cidr));
      PlanPartitions(config.peers, live, s.Managed(config.cidr));
      if !s.manageInterface {
        return Ok(plan.DesiredCount()), live;
      }
      if s.adoptExisting {
        if s.privateKey {
          return Err(AdoptedKey), live;
        }
      } else if !ensured {
        return Err(NoInterface), live;
      }
      if !plan.IsNoop() {
        var done := RunAll(Commands(plan), fails);
        if done < |Commands(plan)| {
          return Err(WgFailed), live;
        }
        assert Commands(plan)[..done] == Commands(plan);
      }
      r := Ok(plan.DesiredCount());
    }
  }

  /** The heartbeat loop's own state. */
  class Gateway {
    const settings: Settings
    const wg: WireGuard
    var lastVersion: int
    var peerCount: nat

    constructor (settings: Settings, wg: WireGuard)
      ensures this.settings == settings && this.wg == wg && lastVersion == -1 && peerCount == 0
    {
      this.settings, this.wg := settings, wg;
      lastVersion, peerCount := -1, 0;
    }

    /** One answered heartbeat: apply a version that is new, and remember it only
        when the whole of it was applied. */
    method Receive(config: GatewayConfig, now: int, readable: bool, ensured: bool, fails: nat -> bool)
      requires wg.wire.Valid(wg.isKey)
      modifies this, wg
      ensures config.version == old(lastVersion) || now > config.expiresAt ==>
                lastVersion == old(lastVersion) && wg.wire == old(wg.wire) && peerCount == old(peerCount)
      ensures lastVersion == old(lastVersion) || (lastVersion == config.version && peerCount == |config.peers|)
      ensures lastVersion != old(lastVersion) && readable && settings.manageInterface ==>
                exists taken: set<Net> | taken <= AllBlocks(config.peers) ::
                  Reconciled(old(wg.wire), wg.wire, config.peers, settings.Managed(config.cidr), taken)
    {
      if config.version == lastVersion || now > config.expiresAt {
        return;
      }
      ghost var before := wg.wire;
      var r, live := wg.Apply(settings, config, now, readable, ensured, fails);
      if r.Ok? {
        peerCount, lastVersion := r.value, config.version;
        if readable && settings.manageInterface {
          PlanReconciles(config.peers, live, before, settings.Managed(config.cidr));
          ChangedAsked(config.peers, live, before, settings.Managed(config.cidr));
        }
      }
    }
  }

  /** A plan gives away nothing but what desired peers ask for. */
  lemma ChangedAsked(desired: seq<Peer>, live: seq<LivePeer>, w: Interface, managed: Option<Net>)
    requires IsDump(live, w)
    ensures AllBlocks(Changed(PlanOf(desired, live, managed))) <= AllBlocks(desired)
  {
    PlanMembers(desired, live, w, managed);
    AllBlocksMembers(desired);
    AllBlocksMembers(Changed(PlanOf(desired, live, managed)));
  }
}
