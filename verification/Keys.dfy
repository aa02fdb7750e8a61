// All entries of a storage share one space of byte keys. The keys of different entries never meet,
// so the storage can be read as separate maps.
module Keys {
  import opened Types
  import opened Bytes
  import opened Accounts
  import opened UserTxBytes

  // Hashes and tree nodes are keyed by byte strings of their own.
  datatype Key =
    | IdxKey(i: Idx)
    | HashKey(hash: seq<byte>)
    | TreeKey(node: seq<byte>)
    | AddrEntry(addr: Addr, token: TokenID)
    | AddrBjjEntry(addr: Addr, pk: BJJ, token: TokenID)
    | CurrentIdxKey
    | CurrentBatchKey

  // concatEthAddrTokenID
  function ConcatAddr(addr: Addr, token: TokenID): (b: seq<byte>)
    ensures |b| == 24
  {
    ToBE(addr, 20) + ToBE(token, 4)
  }

  // concatEthAddrBJJTokenID
  function ConcatAddrBjj(addr: Addr, pk: BJJ, token: TokenID): (b: seq<byte>)
    ensures |b| == 56
  {
    ToBE(addr, 20) + KeyBytes(pk) + ToBE(token, 4)
  }

  // Prefixes "i:", "h:", "m:", "a:", "ab:" and the keys "k:idx" and "k:currentbatch", in ASCII.
  function Prefix(k: Key): (b: seq<byte>)
    ensures |b| >= 2
  {
    match k
    case IdxKey(_) => [105, 58]
    case HashKey(_) => [104, 58]
    case TreeKey(_) => [109, 58]
    case AddrEntry(_, _) => [97, 58]
    case AddrBjjEntry(_, _, _) => [97, 98, 58]
    case CurrentIdxKey => [107, 58, 105, 100, 120]
    case CurrentBatchKey => [107, 58, 99, 117, 114, 114, 101, 110, 116, 98, 97, 116, 99, 104]
  }

  function Rest(k: Key): seq<byte> {
    match k
    case IdxKey(i) => ToBE(i, 6)
    case HashKey(hash) => hash
    case TreeKey(node) => node
    case AddrEntry(addr, token) => ConcatAddr(addr, token)
    case AddrBjjEntry(addr, pk, token) => ConcatAddrBjj(addr, pk, token)
    case _ => []
  }

  function StoreKey(k: Key): seq<byte> {
    Prefix(k) + Rest(k)
  }

  lemma SamePrefix(a: Key, b: Key)
    requires StoreKey(a) == StoreKey(b)
    ensures Prefix(a) == Prefix(b) && Rest(a) == Rest(b)
  {
    var s, t := StoreKey(a), StoreKey(b);
    assert s[0] == Prefix(a)[0] && s[1] == Prefix(a)[1];
    assert t[0] == Prefix(b)[0] && t[1] == Prefix(b)[1];
    if a.CurrentIdxKey? || a.CurrentBatchKey? {
      assert s[2] == Prefix(a)[2] && t[2] == Prefix(b)[2];
    }
    assert Prefix(a) == Prefix(b);
    assert Rest(a) == s[|Prefix(a)|..] && Rest(b) == t[|Prefix(b)|..];
  }

  lemma SameNumber(x: nat, y: nat, n: nat)
    requires x < Pow256(n) && y < Pow256(n) && ToBE(x, n) == ToBE(y, n)
    ensures x == y
  {
    FromToBE(x, n);
    FromToBE(y, n);
  }

  lemma SameKey(a: BJJ, b: BJJ)
    requires KeyBytes(a) == KeyBytes(b)
    ensures a == b
  {
    KeySurvives(a);
    KeySurvives(b);
  }

  // Two entries with the same key bytes are the same entry.
  lemma StoreKeyInjective(a: Key, b: Key)
    requires StoreKey(a) == StoreKey(b)
    requires (a.IdxKey? ==> a.i <= MAX_IDX) && (b.IdxKey? ==> b.i <= MAX_IDX)
    ensures a == b
  {
    SamePrefix(a, b);
    Pow256Values();
    match a
    case IdxKey(i) => SameNumber(i, b.i, 6);
    case AddrEntry(addr, token) =>
      assert ToBE(addr, 20) == Rest(a)[..20] && ToBE(b.addr, 20) == Rest(b)[..20];
      assert ToBE(token, 4) == Rest(a)[20..] && ToBE(b.token, 4) == Rest(b)[20..];
      SameNumber(addr, b.addr, 20);
      SameNumber(token, b.token, 4);
    case AddrBjjEntry(addr, pk, token) =>
      assert ToBE(addr, 20) == Rest(a)[..20] && ToBE(b.addr, 20) == Rest(b)[..20];
      assert KeyBytes(pk) == Rest(a)[20..52] && KeyBytes(b.pk) == Rest(b)[20..52];
      assert ToBE(token, 4) == Rest(a)[52..] && ToBE(b.token, 4) == Rest(b)[52..];
      SameNumber(addr, b.addr, 20);
      SameKey(pk, b.pk);
      SameNumber(token, b.token, 4);
    case _ =>
  }
}
