/** Artifact manifests and their Merkle root. Hashes are idealised as free constructors. */
module Merkle {
  import opened Text

  datatype Hash =
    | EmptyRoot
    | ChunkHash(data: seq<Byte>)
    | LeafHash(index: nat, offset: nat, length: nat, chunk: Hash)
    | NodeHash(left: Hash, right: Hash)
    | ManifestHash(chunkSize: nat, byteLength: nat, entries: seq<ManifestEntry>)
    | TextHash(text: string)
    | ArtifactHash(manifest: Hash, content: Hash, byteLength: nat, chunkSize: nat, mediaType: Hash, metadata: Hash)

  datatype ManifestEntry = ManifestEntry(index: nat, offset: nat, length: nat, chunkHash: Hash)

  // ----- the tree -----

  /** The largest power of two below n. */
  function Split(n: nat): (k: nat)
    requires n >= 2
    ensures 1 <= k < n <= 2 * k
  {
    if n == 2 then 1 else 2 * Split((n + 1) / 2)
  }

  function Power(e: nat): nat {
    if e == 0 then 1 else 2 * Power(e - 1)
  }

  lemma {:induction false} SplitIsPower(n: nat) returns (e: nat)
    requires n >= 2
    ensures Split(n) == Power(e)
  {
    if n == 2 {
      e := 0;
    } else {
      var d := SplitIsPower((n + 1) / 2);
      e := d + 1;
    }
  }

  /** The reference tree: the left part is the largest full binary tree, the rest hangs to its right. */
  function Tree(leaves: seq<Hash>): Hash
    decreases |leaves|
  {
    if leaves == [] then EmptyRoot
    else if |leaves| == 1 then leaves[0]
    else
      var k := Split(|leaves|);
      NodeHash(Tree(leaves[..k]), Tree(leaves[k..]))
  }

  // ----- the loop -----

  /** One level up: neighbours are paired, an odd last node is promoted as it is. */
  function Paired(level: seq<Hash>): (r: seq<Hash>)
    ensures |r| == (|level| + 1) / 2
    decreases |level|
  {
    if |level| <= 1 then level else [NodeHash(level[0], level[1])] + Paired(level[2..])
  }

  lemma {:induction false} PairedSplits(xs: seq<Hash>, ys: seq<Hash>)
    requires |xs| % 2 == 0
    ensures Paired(xs + ys) == Paired(xs) + Paired(ys)
    decreases |xs|
  {
    if xs == [] {
      assert xs + ys == ys;
    } else {
      assert (xs + ys)[2..] == xs[2..] + ys;
      PairedSplits(xs[2..], ys);
    }
  }

  lemma PairOfOne(level: seq<Hash>)
    requires |level| == 1
    ensures Paired(level) == level
  {
  }

  lemma PairOfTwo(level: seq<Hash>)
    requires |level| == 2
    ensures Tree(Paired(level)) == Tree(level)
  {
    assert Split(2) == 1;
    assert level[..1] == [level[0]] && level[1..] == [level[1]];
    assert Paired(level) == [NodeHash(level[0], level[1])];
  }

  /** Pairing respects the split of the tree. */
  lemma PairedHalves(level: seq<Hash>, k: nat)
    requires |level| > 2 && k == Split(|level|)
    ensures Split(|Paired(level)|) == k / 2
    ensures Paired(level)[..k / 2] == Paired(level[..k]) && Paired(level)[k / 2..] == Paired(level[k..])
  {
    assert k == 2 * Split((|level| + 1) / 2);
    assert level == level[..k] + level[k..];
    PairedSplits(level[..k], level[k..]);
  }

  /** Going up one level does not change the tree. */
  lemma {:induction false} PairedKeepsTree(level: seq<Hash>)
    requires |level| >= 1
    ensures Tree(Paired(level)) == Tree(level)
    decreases |level|
  {
    hide Paired;
    if |level| == 2 {
      PairOfTwo(level);
    } else if |level| == 1 {
      assert Paired(level) == level by {
        PairOfOne(level);
      }
    } else {
      var k := Split(|level|);
      PairedHalves(level, k);
      PairedKeepsTree(level[..k]);
      PairedKeepsTree(level[k..]);
    }
  }

  lemma PairedStep(level: seq<Hash>, i: nat)
    requires i < |level|
    ensures i + 1 < |level| ==> Paired(level[i..]) == [NodeHash(level[i], level[i + 1])] + Paired(level[i + 2..])
    ensures i + 1 == |level| ==> Paired(level[i..]) == [level[i]]
  {
    if i + 1 < |level| {
      assert level[i..][2..] == level[i + 2..];
    }
  }

  /** The inner loop of `merkleRoot`: one level built left to right. */
  method PairLevel(level: seq<Hash>) returns (next: seq<Hash>)
    ensures next == Paired(level)
  {
    hide Paired;
    next := [];
    var i := 0;
    ghost var rest := Paired(level);
    assert level[0..] == level;
    while i < |level|
      invariant i <= |level| + 1
      invariant Paired(level) == next + rest
      invariant rest == if i < |level| then Paired(level[i..]) else []
    {
      PairedStep(level, i);
      if i + 1 < |level| {
        next := next + [NodeHash(level[i], level[i + 1])];
        rest := Paired(level[i + 2..]);
      } else {
        next := next + [level[i]];
        rest := [];
      }
      i := i + 2;
      if i == |level| {
        assert level[i..] == [];
        assert |rest| == 0;
      }
    }
  }

  /** `merkleRoot`: level by level until one hash is left. */
  method MerkleRoot(leafHashes: seq<Hash>) returns (root: Hash)
    ensures root == Tree(leafHashes)
  {
    hide Paired;
    if |leafHashes| == 0 {
      return EmptyRoot;
    }
    var level := leafHashes;
    while |level| > 1
      invariant |level| >= 1 && Tree(level) == Tree(leafHashes)
      decreases |level|
    {
      PairedKeepsTree(level);
      level := PairLevel(level);
    }
    root := level[0];
  }

  // ----- what the root fixes -----

  /** The leaves under a hash, left to right. */
  function Leaves(h: Hash): seq<Hash> {
    match h
    case EmptyRoot => []
    case NodeHash(left, right) => Leaves(left) + Leaves(right)
    case _ => [h]
  }

  predicate AllLeaves(hs: seq<Hash>) {
    forall i :: 0 <= i < |hs| ==> hs[i].LeafHash?
  }

  /** Reading the leaves off the root of leaf hashes gives the list back. */
  lemma {:induction false} LeavesOfTree(leaves: seq<Hash>)
    requires AllLeaves(leaves)
    ensures Leaves(Tree(leaves)) == leaves
    decreases |leaves|
  {
    if |leaves| > 1 {
      var k := Split(|leaves|);
      LeavesOfTree(leaves[..k]);
      LeavesOfTree(leaves[k..]);
      assert leaves == leaves[..k] + leaves[k..];
    }
  }

  /** The root of leaf hashes fixes their number, their order and their content. */
  lemma RootBindsLeaves(xs: seq<Hash>, ys: seq<Hash>)
    requires AllLeaves(xs) && AllLeaves(ys) && Tree(xs) == Tree(ys)
    ensures xs == ys
  {
    LeavesOfTree(xs);
    LeavesOfTree(ys);
  }

  /** For raw hashes, which may be nodes themselves, equal roots mean equal lists exactly at equal length. */
  lemma {:induction false} RootBindsAtEqualLength(xs: seq<Hash>, ys: seq<Hash>)
    requires Tree(xs) == Tree(ys)
    ensures xs == ys <==> |xs| == |ys|
    decreases |xs|
  {
    if |xs| == |ys| && |xs| > 1 {
      var k := Split(|xs|);
      RootBindsAtEqualLength(xs[..k], ys[..k]);
      RootBindsAtEqualLength(xs[k..], ys[k..]);
      assert xs == xs[..k] + xs[k..] && ys == ys[..k] + ys[k..];
    }
  }

  /** Raw hash lists of different length can share a root. */
  lemma RawListsCanCollide(a: Hash, b: Hash)
    ensures Tree([NodeHash(a, b)]) == Tree([a, b]) && [NodeHash(a, b)] != [a, b]
  {
    assert Split(2) == 1;
    assert [a, b][..1] == [a] && [a, b][1..] == [b];
  }

  // ----- manifests -----

  /** Entry i covers the bytes chunk i occupies in the artifact. */
  predicate Describes(entries: seq<ManifestEntry>, chunks: seq<seq<Byte>>) {
    && |entries| == |chunks|
    && forall i :: 0 <= i < |chunks| ==>
         entries[i] == ManifestEntry(i, |Concat(chunks[..i])|, |chunks[i]|, ChunkHash(chunks[i]))
  }

  /** `buildArtifactManifest`: one pass with a running offset. */
  method BuildManifest(chunks: seq<seq<Byte>>) returns (entries: seq<ManifestEntry>, byteLength: nat)
    ensures Describes(entries, chunks) && byteLength == |Concat(chunks)|
  {
    entries, byteLength := [], 0;
    for i := 0 to |chunks|
      invariant |entries| == i && byteLength == |Concat(chunks[..i])|
      invariant forall j :: 0 <= j < i ==>
                  entries[j] == ManifestEntry(j, |Concat(chunks[..j])|, |chunks[j]|, ChunkHash(chunks[j]))
    {
      entries := entries + [ManifestEntry(i, byteLength, |chunks[i]|, ChunkHash(chunks[i]))];
      byteLength := byteLength + |chunks[i]|;
      assert chunks[..i + 1][..i] == chunks[..i];
    }
    assert chunks[..|chunks|] == chunks;
  }

  predicate Covers(e: ManifestEntry, at: nat) {
    e.offset <= at < e.offset + e.length
  }

  lemma {:induction false} ConcatGrows(chunks: seq<seq<Byte>>, i: nat, j: nat)
    requires i <= j <= |chunks|
    ensures Concat(chunks[..i]) <= Concat(chunks[..j])
    ensures i < j ==> |Concat(chunks[..i])| + |chunks[i]| <= |Concat(chunks[..j])|
    ensures i < j ==> Concat(chunks[..j])[|Concat(chunks[..i])|..][..|chunks[i]|] == chunks[i]
    decreases j
  {
    if i < j {
      assert chunks[..j][..j - 1] == chunks[..j - 1];
      ConcatGrows(chunks, i, j - 1);
    }
  }

  /** No byte is covered twice. */
  lemma EntriesDoNotOverlap(entries: seq<ManifestEntry>, chunks: seq<seq<Byte>>, i: nat, j: nat, at: nat)
    requires Describes(entries, chunks) && i < |entries| && j < |entries|
    requires Covers(entries[i], at) && Covers(entries[j], at)
    ensures i == j
  {
    if i < j {
      ConcatGrows(chunks, i, j);
    } else if j < i {
      ConcatGrows(chunks, j, i);
    }
  }

  /** A covered byte is in the artifact, and is the byte of the covering chunk. */
  lemma CoveredByte(entries: seq<ManifestEntry>, chunks: seq<seq<Byte>>, i: nat, at: nat)
    requires Describes(entries, chunks) && i < |entries| && Covers(entries[i], at)
    ensures at < |Concat(chunks)| && Concat(chunks)[at] == chunks[i][at - entries[i].offset]
  {
    hide Concat;
    ConcatGrows(chunks, i, |chunks|);
    assert chunks[..|chunks|] == chunks;
    var o := entries[i].offset;
    assert chunks[i][at - o] == Concat(chunks)[o..][..|chunks[i]|][at - o];
  }

  lemma DescribesPrefix(entries: seq<ManifestEntry>, chunks: seq<seq<Byte>>, n: nat)
    requires Describes(entries, chunks) && n <= |chunks|
    ensures Describes(entries[..n], chunks[..n])
  {
    hide Concat;
    forall i | 0 <= i < n
      ensures chunks[..n][..i] == chunks[..i]
    {
    }
  }

  /** Every byte of the artifact is covered. */
  lemma {:induction false} EntriesCover(entries: seq<ManifestEntry>, chunks: seq<seq<Byte>>, at: nat) returns (i: nat)
    requires Describes(entries, chunks) && at < |Concat(chunks)|
    ensures i < |entries| && Covers(entries[i], at)
    decreases |chunks|
  {
    var n := |chunks| - 1;
    if at < |Concat(chunks[..n])| {
      DescribesPrefix(entries, chunks, n);
      i := EntriesCover(entries[..n], chunks[..n], at);
    } else {
      i := n;
    }
  }

  // ----- the content root of an artifact -----

  function LeafOf(e: ManifestEntry): Hash {
    LeafHash(e.index, e.offset, e.length, e.chunkHash)
  }

  function LeavesFor(entries: seq<ManifestEntry>): (r: seq<Hash>)
    ensures |r| == |entries| && AllLeaves(r)
  {
    seq(|entries|, i requires 0 <= i < |entries| => LeafOf(entries[i]))
  }

  datatype Artifact = Artifact(entries: seq<ManifestEntry>, byteLength: nat, contentRoot: Hash, artifactRoot: Hash)

  /** `artifactFromChunks`; `metadata` is the canonical text of the metadata. */
  method ArtifactFromChunks(chunks: seq<seq<Byte>>, chunkSize: nat, mediaType: string, metadata: string)
    returns (a: Artifact)
    ensures Describes(a.entries, chunks) && a.byteLength == |Concat(chunks)|
    ensures a.contentRoot == Tree(LeavesFor(a.entries))
    ensures a.artifactRoot == ArtifactRoot(a.entries, chunkSize, a.byteLength, mediaType, metadata)
  {
    var entries, byteLength := BuildManifest(chunks);
    var contentRoot := MerkleRoot(LeavesFor(entries));
    var root := ArtifactHash(ManifestHash(chunkSize, byteLength, entries), contentRoot, byteLength, chunkSize,
                             TextHash(mediaType), TextHash(metadata));
    a := Artifact(entries, byteLength, contentRoot, root);
  }

  /** The commitment to a manifest, its content and its description. */
  function ArtifactRoot(
      entries: seq<ManifestEntry>, chunkSize: nat, byteLength: nat, mediaType: string, metadata: string): Hash
  {
    ArtifactHash(ManifestHash(chunkSize, byteLength, entries), Tree(LeavesFor(entries)), byteLength, chunkSize,
                 TextHash(mediaType), TextHash(metadata))
  }

  /** The content root fixes the chunks: their number, order and bytes. */
  lemma ContentRootBindsChunks(some: seq<ManifestEntry>, xs: seq<seq<Byte>>, other: seq<ManifestEntry>, ys: seq<seq<Byte>>)
    requires Describes(some, xs) && Describes(other, ys)
    requires Tree(LeavesFor(some)) == Tree(LeavesFor(other))
    ensures xs == ys
  {
    RootBindsLeaves(LeavesFor(some), LeavesFor(other));
    assert |xs| == |LeavesFor(some)| == |LeavesFor(other)| == |ys|;
    forall i | 0 <= i < |xs|
      ensures xs[i] == ys[i]
    {
      assert LeavesFor(some)[i] == LeavesFor(other)[i];
      assert some[i].chunkHash == ChunkHash(xs[i]) && other[i].chunkHash == ChunkHash(ys[i]);
    }
  }

  /** Two artifacts built from chunks have the same root exactly when everything they were built from is the same. */
  lemma ArtifactRootBindsArtifact(
      some: seq<ManifestEntry>, xs: seq<seq<Byte>>, size: nat, media: string, meta: string,
      other: seq<ManifestEntry>, ys: seq<seq<Byte>>, size': nat, media': string, meta': string)
    requires Describes(some, xs) && Describes(other, ys)
    ensures ArtifactRoot(some, size, |Concat(xs)|, media, meta) == ArtifactRoot(other, size', |Concat(ys)|, media', meta') <==>
            xs == ys && size == size' && media == media' && meta == meta'
  {
    hide Tree, LeavesFor, Concat;
    if Tree(LeavesFor(some)) == Tree(LeavesFor(other)) {
      ContentRootBindsChunks(some, xs, other, ys);
    }
    if xs == ys {
      assert some == other;
    }
  }
}
