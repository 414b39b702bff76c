/** Adopting the best chain among static peers. */
module PeerSync {
  import opened Prelude
  import opened State

  /** A node's state file: a chain under a chain id. */
  datatype NodeState = NodeState(chainId: string, chain: Chain)

  /** What is found where a peer's state file should be. */
  datatype StateFile = Absent | Unreadable | Readable(node: NodeState)

  datatype Peer = Peer(id: string, file: StateFile)

  datatype SyncEvent = SyncEvent(peer: string, height: nat, root: string)

  /** The state so far, the last adoption, and whether every file so far could be read. */
  datatype Sync = Sync(state: NodeState, adopted: Option<SyncEvent>, ok: bool)

  // ----- the order -----

  /** Strings compared character by character, a proper prefix first. */
  predicate LexLess(a: string, b: string) {
    b != [] && (a == [] || a[0] < b[0] || (a[0] == b[0] && LexLess(a[1..], b[1..])))
  }

  lemma {:induction false} LexIrreflexive(a: string)
    ensures !LexLess(a, a)
  {
    if a != [] {
      LexIrreflexive(a[1..]);
    }
  }

  lemma {:induction false} LexTransitive(a: string, b: string, c: string)
    requires LexLess(a, b) && LexLess(b, c)
    ensures LexLess(a, c)
  {
    if a != [] && a[0] == b[0] && b[0] == c[0] {
      LexTransitive(a[1..], b[1..], c[1..]);
    }
  }

  lemma {:induction false} LexTotal(a: string, b: string)
    ensures a == b || LexLess(a, b) || LexLess(b, a)
  {
    if a != [] && b != [] && a[0] == b[0] {
      LexTotal(a[1..], b[1..]);
      assert a == [a[0]] + a[1..] && b == [b[0]] + b[1..];
    }
  }

  /** The strings agree before position i, where the first one ends or has the smaller character. */
  predicate SmallerAt(a: string, b: string, i: nat) {
    i <= |a| && i < |b| && a[..i] == b[..i] && (i == |a| || a[i] < b[i])
  }

  /** One string comes before another exactly when it is smaller at the first position where they differ. */
  lemma {:induction false} LexLessMeans(a: string, b: string)
    ensures LexLess(a, b) <==> exists i :: SmallerAt(a, b, i)
  {
    if a != [] && b != [] && a[0] == b[0] {
      LexLessMeans(a[1..], b[1..]);
      if i: nat :| SmallerAt(a[1..], b[1..], i) {
        assert a[..i + 1] == [a[0]] + a[1..][..i] && b[..i + 1] == [b[0]] + b[1..][..i];
        assert SmallerAt(a, b, i + 1);
      }
      if i: nat :| SmallerAt(a, b, i) {
        assert i > 0;
        assert a[1..][..i - 1] == a[..i][1..] && b[1..][..i - 1] == b[..i][1..];
        assert SmallerAt(a[1..], b[1..], i - 1);
      }
    } else {
      if LexLess(a, b) {
        assert SmallerAt(a, b, 0);
      }
      if i: nat :| SmallerAt(a, b, i) {
        assert i > 0 ==> a[..i][0] == b[..i][0];
      }
    }
  }

  function Height(s: NodeState): nat {
    |s.chain.blocks|
  }

  /** The state root as the node prints it; `hex` is the printing of digests. */
  function RootOf(hex: Digest -> string, s: NodeState): string {
    hex(StateRoot(s.chain.core))
  }

  /** `should_adopt_peer_state` */
  predicate Better(hex: Digest -> string, peer: NodeState, local: NodeState) {
    || Height(peer) > Height(local)
    || (Height(peer) == Height(local) && Height(peer) > 0 && LexLess(RootOf(hex, peer), RootOf(hex, local)))
  }

  /** What adoption looks at: the height, and past genesis the root. */
  function Rank(hex: Digest -> string, s: NodeState): (nat, string) {
    (Height(s), if Height(s) == 0 then "" else RootOf(hex, s))
  }

  /** Neither of two states beats the other exactly when they have the same rank. */
  lemma TiesAreEqualRanks(hex: Digest -> string, a: NodeState, b: NodeState)
    ensures !Better(hex, a, b) && !Better(hex, b, a) <==> Rank(hex, a) == Rank(hex, b)
  {
    LexTotal(RootOf(hex, a), RootOf(hex, b));
    LexIrreflexive(RootOf(hex, a));
    LexIrreflexive(RootOf(hex, b));
  }

  /** Adoption is a strict weak order: irreflexive, transitive, and so are its ties. */
  lemma BetterIsStrictWeakOrder(hex: Digest -> string, a: NodeState, b: NodeState, c: NodeState)
    ensures !Better(hex, a, a)
    ensures Better(hex, a, b) ==> !Better(hex, b, a)
    ensures Better(hex, a, b) && Better(hex, b, c) ==> Better(hex, a, c)
    ensures !Better(hex, a, b) && !Better(hex, b, c) ==> !Better(hex, a, c)
  {
    var ra, rb, rc := RootOf(hex, a), RootOf(hex, b), RootOf(hex, c);
    LexIrreflexive(ra);
    if LexLess(ra, rb) && LexLess(rb, ra) {
      LexTransitive(ra, rb, ra);
    }
    if LexLess(ra, rb) && LexLess(rb, rc) {
      LexTransitive(ra, rb, rc);
    }
    LexTotal(ra, rb);
    LexTotal(rb, rc);
    if LexLess(ra, rc) && LexLess(rc, rb) {
      LexTransitive(ra, rc, rb);
    }
    if LexLess(rb, ra) && LexLess(ra, rc) {
      LexTransitive(rb, ra, rc);
    }
  }

  // ----- one pass over the peers -----

  /** One peer: skipped when absent or on another chain, fatal when unreadable, adopted when better. */
  function Visit(hex: Digest -> string, r: Sync, p: Peer): Sync {
    if !r.ok then r
    else
      match p.file
      case Absent => r
      case Unreadable => r.(adopted := None, ok := false)
      case Readable(node) =>
        if node.chainId != r.state.chainId || !Better(hex, node, r.state) then r
        else Sync(node, Some(SyncEvent(p.id, Height(node), RootOf(hex, node))), true)
  }

  function SyncAll(hex: Digest -> string, s: NodeState, peers: seq<Peer>): Sync {
    if peers == [] then Sync(s, None, true)
    else Visit(hex, SyncAll(hex, s, peers[..|peers| - 1]), peers[|peers| - 1])
  }

  class Node {
    var state: NodeState

    constructor (initial: NodeState)
      ensures state == initial
    {
      state := initial;
    }

    /** `sync_from_peers`: `None` is the error of an unreadable peer file; adoptions made before it stay. */
    method SyncFromPeers(hex: Digest -> string, peers: seq<Peer>) returns (r: Option<Option<SyncEvent>>)
      modifies this
      ensures var s := SyncAll(hex, old(state), peers);
              state == s.state && r == if s.ok then Some(s.adopted) else None
    {
      var adopted := None;
      assert peers[..0] == [];
      for i := 0 to |peers|
        invariant SyncAll(hex, old(state), peers[..i]) == Sync(state, adopted, true)
      {
        assert peers[..i + 1][..i] == peers[..i];
        var p := peers[i];
        match p.file {
          case Absent =>
          case Unreadable =>
            Unrecovered(hex, old(state), peers, i + 1);
            return None;
          case Readable(node) =>
            if node.chainId == state.chainId && Better(hex, node, state) {
              state := node;
              adopted := Some(SyncEvent(p.id, Height(node), RootOf(hex, node)));
            }
        }
      }
      assert peers[..|peers|] == peers;
      r := Some(adopted);
    }
  }

  /** Once a file could not be read, later peers change nothing. */
  lemma {:induction false} Unrecovered(hex: Digest -> string, s: NodeState, peers: seq<Peer>, i: nat)
    requires i <= |peers| && !SyncAll(hex, s, peers[..i]).ok
    ensures SyncAll(hex, s, peers) == SyncAll(hex, s, peers[..i])
    decreases |peers| - i
  {
    if i == |peers| {
      assert peers[..i] == peers;
    } else {
      assert peers[..i + 1][..i] == peers[..i];
      Unrecovered(hex, s, peers, i + 1);
    }
  }

  /** Every peer file that exists can be read. */
  predicate AllReadable(peers: seq<Peer>) {
    forall i :: 0 <= i < |peers| ==> !peers[i].file.Unreadable?
  }

  /** The states on the node's own chain that the peers offer. */
  predicate Offered(peers: seq<Peer>, chainId: string, n: NodeState) {
    n.chainId == chainId && exists i :: 0 <= i < |peers| && peers[i].file == Readable(n)
  }

  /** The pass succeeds exactly when every file can be read, and keeps to its chain. */
  lemma {:induction false} SyncSucceeds(hex: Digest -> string, s: NodeState, peers: seq<Peer>)
    ensures SyncAll(hex, s, peers).ok <==> AllReadable(peers)
    ensures SyncAll(hex, s, peers).state.chainId == s.chainId
  {
    if peers != [] {
      var most := peers[..|peers| - 1];
      SyncSucceeds(hex, s, most);
      assert AllReadable(peers) <==> AllReadable(most) && !peers[|peers| - 1].file.Unreadable?;
    }
  }

  /** The result is the node's own state or an offered one, the latter exactly when an adoption is reported. */
  lemma {:induction false} SyncPicksOffered(hex: Digest -> string, s: NodeState, peers: seq<Peer>)
    requires AllReadable(peers)
    ensures var r := SyncAll(hex, s, peers);
            && (r.adopted.None? ==> r.state == s)
            && (r.adopted.Some? ==>
                && Offered(peers, s.chainId, r.state) && Better(hex, r.state, s)
                && r.adopted.value.height == Height(r.state) && r.adopted.value.root == RootOf(hex, r.state))
  {
    if peers != [] {
      var most := peers[..|peers| - 1];
      var r0 := SyncAll(hex, s, most);
      var r := SyncAll(hex, s, peers);
      SyncPicksOffered(hex, s, most);
      SyncSucceeds(hex, s, most);
      BetterIsStrictWeakOrder(hex, r.state, r0.state, s);
      OfferedMore(peers, s.chainId, r.state);
    }
  }

  lemma OfferedMore(peers: seq<Peer>, chainId: string, n: NodeState)
    requires peers != []
    ensures Offered(peers, chainId, n) <==>
            Offered(peers[..|peers| - 1], chainId, n) || (n.chainId == chainId && peers[|peers| - 1].file == Readable(n))
  {
    var most := peers[..|peers| - 1];
    if i :| 0 <= i < |most| && most[i].file == Readable(n) {
      assert peers[i].file == Readable(n);
    }
    if i :| 0 <= i < |peers| && peers[i].file == Readable(n) {
      assert i < |most| ==> most[i].file == Readable(n);
    }
  }

  /** Nothing beats the result: neither the state the node had nor any state offered on its chain. */
  lemma {:induction false} SyncPicksBest(hex: Digest -> string, s: NodeState, peers: seq<Peer>, n: NodeState)
    requires AllReadable(peers) && (n == s || Offered(peers, s.chainId, n))
    ensures !Better(hex, n, SyncAll(hex, s, peers).state)
  {
    if peers == [] {
      LexIrreflexive(RootOf(hex, s));
    } else {
      var most := peers[..|peers| - 1];
      var r0 := SyncAll(hex, s, most);
      var r := SyncAll(hex, s, peers);
      SyncSucceeds(hex, s, most);
      OfferedMore(peers, s.chainId, n);
      BetterIsStrictWeakOrder(hex, n, r0.state, r.state);
      BetterIsStrictWeakOrder(hex, r.state, r0.state, n);
      BetterIsStrictWeakOrder(hex, r.state, n, n);
      if n == s || Offered(most, s.chainId, n) {
        SyncPicksBest(hex, s, most, n);
      }
    }
  }

  /** No candidate is higher than the result, and past genesis none of the same height has a root that sorts before its root. */
  lemma SyncPicksHighestThenFirst(hex: Digest -> string, s: NodeState, peers: seq<Peer>, n: NodeState)
    requires AllReadable(peers) && (n == s || Offered(peers, s.chainId, n))
    ensures var r := SyncAll(hex, s, peers).state;
            && Height(n) <= Height(r)
            && (Height(n) == Height(r) > 0 ==> !exists i :: SmallerAt(RootOf(hex, n), RootOf(hex, r), i))
            && (Height(r) == 0 ==> r == s)
  {
    hide LexLess, SyncAll, SmallerAt;
    var r := SyncAll(hex, s, peers).state;
    SyncPicksBest(hex, s, peers, n);
    SyncPicksOffered(hex, s, peers);
    LexLessMeans(RootOf(hex, n), RootOf(hex, r));
  }

  /** A peer's state on the same chain replaces the node's exactly when it is higher, or equally high past genesis with a root that sorts first. */
  lemma OnePeerAdoptedIff(hex: Digest -> string, s: NodeState, id: string, n: NodeState)
    ensures SyncAll(hex, s, [Peer(id, Readable(n))]).adopted.Some? <==>
            n.chainId == s.chainId &&
            (Height(n) > Height(s) ||
             (Height(n) == Height(s) > 0 && exists i :: SmallerAt(RootOf(hex, n), RootOf(hex, s), i)))
  {
    hide LexLess;
    LexLessMeans(RootOf(hex, n), RootOf(hex, s));
    assert [Peer(id, Readable(n))][..0] == [];
  }

  /** The height never drops, whether or not every file can be read. */
  lemma {:induction false} HeightNeverDrops(hex: Digest -> string, s: NodeState, peers: seq<Peer>)
    ensures Height(SyncAll(hex, s, peers).state) >= Height(s)
  {
    if peers != [] {
      HeightNeverDrops(hex, s, peers[..|peers| - 1]);
    }
  }

  /** The rank of the result depends on which states are offered, not on the order of the peers. */
  lemma OrderDoesNotMatter(hex: Digest -> string, s: NodeState, some: seq<Peer>, other: seq<Peer>)
    requires AllReadable(some) && AllReadable(other)
    requires forall n :: Offered(some, s.chainId, n) <==> Offered(other, s.chainId, n)
    ensures Rank(hex, SyncAll(hex, s, some).state) == Rank(hex, SyncAll(hex, s, other).state)
  {
    var a := SyncAll(hex, s, some).state;
    var b := SyncAll(hex, s, other).state;
    SyncPicksOffered(hex, s, some);
    SyncPicksOffered(hex, s, other);
    SyncPicksBest(hex, s, other, a);
    SyncPicksBest(hex, s, some, b);
    TiesAreEqualRanks(hex, a, b);
  }

  /** The states a pass can end in: the node's own and those offered on its chain. */
  predicate Candidate(s: NodeState, peers: seq<Peer>, n: NodeState) {
    n == s || Offered(peers, s.chainId, n)
  }

  /**
   * Past genesis, when different roots among the candidates print differently, even the committed
   * state does not depend on the order.
   */
  lemma OrderDoesNotMatterForState(hex: Digest -> string, s: NodeState, some: seq<Peer>, other: seq<Peer>)
    requires AllReadable(some) && AllReadable(other)
    requires forall n :: Offered(some, s.chainId, n) <==> Offered(other, s.chainId, n)
    requires forall m, n :: Candidate(s, some, m) && Candidate(s, some, n) && RootOf(hex, m) == RootOf(hex, n) ==>
               StateRoot(m.chain.core) == StateRoot(n.chain.core)
    requires Height(SyncAll(hex, s, some).state) > 0
    ensures SyncAll(hex, s, some).state.chain.core == SyncAll(hex, s, other).state.chain.core
  {
    OrderDoesNotMatter(hex, s, some, other);
    SyncPicksOffered(hex, s, some);
    SyncPicksOffered(hex, s, other);
    var a := SyncAll(hex, s, some).state;
    var b := SyncAll(hex, s, other).state;
    assert Candidate(s, some, a) && Candidate(s, some, b);
  }

  /** Peers that offer nothing better leave the node alone. */
  lemma {:induction false} NothingBetter(hex: Digest -> string, s: NodeState, peers: seq<Peer>)
    requires AllReadable(peers)
    requires forall n :: Offered(peers, s.chainId, n) ==> !Better(hex, n, s)
    ensures SyncAll(hex, s, peers) == Sync(s, None, true)
  {
    if peers != [] {
      var last := peers[|peers| - 1];
      forall n
        ensures Offered(peers[..|peers| - 1], s.chainId, n) ==> Offered(peers, s.chainId, n)
        ensures n.chainId == s.chainId && last.file == Readable(n) ==> Offered(peers, s.chainId, n)
      {
        OfferedMore(peers, s.chainId, n);
      }
      NothingBetter(hex, s, peers[..|peers| - 1]);
    }
  }

  /** A second pass over the same peers adopts nothing. */
  lemma SecondSyncAdoptsNothing(hex: Digest -> string, s: NodeState, peers: seq<Peer>)
    requires AllReadable(peers)
    ensures var r := SyncAll(hex, s, peers).state; SyncAll(hex, r, peers) == Sync(r, None, true)
  {
    var r := SyncAll(hex, s, peers).state;
    SyncSucceeds(hex, s, peers);
    forall n | Offered(peers, r.chainId, n)
      ensures !Better(hex, n, r)
    {
      SyncPicksBest(hex, s, peers, n);
    }
    NothingBetter(hex, r, peers);
  }
}
