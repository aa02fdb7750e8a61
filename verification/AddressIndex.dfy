// What the two address lookups answer, in terms of the accounts that were created.
module AddressIndex {
  import opened Types
  import opened Accounts
  import opened Ledgers
  import opened LedgerInvariants

  // A full address and key: the lookup finds the smallest index created with them, if any.
  lemma LookupByKeyIsSmallest(led: Ledger, log: seq<Creation>, c: Creation)
    requires Inv(led, log) && c.addr != EMPTY_ADDR && c.bjj != EMPTY_BJJ
    ensures led.Lookup(c.addr, c.bjj, c.token).Ok? <==> c in log
    ensures led.Lookup(c.addr, c.bjj, c.token).Ok? ==>
      var i := led.Lookup(c.addr, c.bjj, c.token).value;
      && CreatedExactlyAt(log, i, c)
      && forall k :: 0 <= k < i - USER_THRESHOLD ==> log[k] != c
  {
    if c in log {
      var k :| 0 <= k < |log| && log[k] == c;
      assert (log[k].addr, log[k].bjj, log[k].token) in led.byAddrBjj;
    }
    if led.Lookup(c.addr, c.bjj, c.token).Ok? {
      var i := led.Lookup(c.addr, c.bjj, c.token).value;
      assert CreatedExactlyAt(log, i, c);
    }
  }

  // An address alone: the lookup answers exactly when an account with that address and token
  // exists, and the answer is such an account.
  lemma LookupByAddrIsSound(led: Ledger, log: seq<Creation>, addr: Addr, token: TokenID)
    requires Inv(led, log) && addr != EMPTY_ADDR
    ensures led.Lookup(addr, EMPTY_BJJ, token).Ok? <==>
      exists i :: i in led.accounts && led.accounts[i].ethAddr == addr && led.accounts[i].tokenID == token
    ensures var r := led.Lookup(addr, EMPTY_BJJ, token);
      r.Ok? ==> (
        && r.value in led.accounts
        && led.accounts[r.value].ethAddr == addr && led.accounts[r.value].tokenID == token)
  {
    var r := led.Lookup(addr, EMPTY_BJJ, token);
    if r.Ok? {
      assert CreatedAt(log, r.value, addr, token);
      assert Matches(led.accounts[USER_THRESHOLD + (r.value - USER_THRESHOLD)], log[r.value - USER_THRESHOLD]);
    }
    if i :| i in led.accounts && led.accounts[i].ethAddr == addr && led.accounts[i].tokenID == token {
      var k := i - USER_THRESHOLD;
      assert Matches(led.accounts[USER_THRESHOLD + k], log[k]);
      assert (log[k].addr, log[k].token) in led.byAddr;
    }
  }

  // The first creation with an address and token.
  ghost predicate IsFirst(log: seq<Creation>, k: nat, addr: Addr, token: TokenID) {
    && k < |log| && log[k].addr == addr && log[k].token == token
    && forall j :: 0 <= j < k ==> !(log[j].addr == addr && log[j].token == token)
  }

  ghost predicate SameKeyOrNone(log: seq<Creation>, first: nat, addr: Addr, token: TokenID)
    requires first < |log|
  {
    forall k :: first < k < |log| && log[k].addr == addr && log[k].token == token ==>
      log[k].bjj == log[first].bjj || log[k].bjj == EMPTY_BJJ
  }

  // The answer for an address alone is the smallest index, as its comment promises, exactly when
  // every later account with that address and token has the first one's key or an empty one.
  lemma LookupByAddrSmallestIff(led: Ledger, log: seq<Creation>, addr: Addr, token: TokenID, first: nat)
    requires Inv(led, log) && addr != EMPTY_ADDR && IsFirst(log, first, addr, token)
    ensures led.Lookup(addr, EMPTY_BJJ, token).Ok?
    ensures led.Lookup(addr, EMPTY_BJJ, token).value == USER_THRESHOLD + first
      <==> SameKeyOrNone(log, first, addr, token)
  {
    assert (log[first].addr, log[first].token) in led.byAddr;
    if SameKeyOrNone(log, first, addr, token) {
      FirstStays(led.byAddr, log, addr, token, first);
    } else {
      var k :| first < k < |log| && log[k].addr == addr && log[k].token == token
        && log[k].bjj != log[first].bjj && log[k].bjj != EMPTY_BJJ;
      SomeKeyWritten(log, addr, token, first, k);
    }
  }

  lemma FirstStays(byAddr: map<AddrKey, Idx>, log: seq<Creation>, addr: Addr, token: TokenID, first: nat)
    requires AddrIndexed(byAddr, log) && AddrLatest(byAddr, log)
    requires addr != EMPTY_ADDR && IsFirst(log, first, addr, token) && SameKeyOrNone(log, first, addr, token)
    ensures (addr, token) in byAddr && byAddr[(addr, token)] == USER_THRESHOLD + first
  {
    assert (log[first].addr, log[first].token) in byAddr;
    forall m | first < m < |log| && log[m].addr == addr && log[m].token == token
      ensures !Written(log, m)
    {
      assert Shadows(log[first], log[m]);
    }
    var k := byAddr[(addr, token)] - USER_THRESHOLD;
    assert CreatedAt(log, byAddr[(addr, token)], addr, token) && Written(log, k);
  }

  // A later key that the first creation does not have was written when it first appeared.
  lemma {:induction false} SomeKeyWritten(log: seq<Creation>, addr: Addr, token: TokenID, first: nat, k: nat)
    requires IsFirst(log, first, addr, token) && first < k < |log|
    requires log[k].addr == addr && log[k].token == token
    requires log[k].bjj != log[first].bjj && log[k].bjj != EMPTY_BJJ
    ensures exists j :: first < j < |log| && log[j].addr == addr && log[j].token == token && Written(log, j)
    decreases k
  {
    if !Written(log, k) {
      var j :| 0 <= j < k && Shadows(log[j], log[k]);
      SomeKeyWritten(log, addr, token, first, j);
    }
  }

  // Two accounts of one address with different keys: the lookup by address answers the second.
  lemma LookupByAddrNotSmallest()
    ensures var led := EMPTY_LEDGER.Register(32, 7, BJJ(false, 1), 0).Register(33, 7, BJJ(false, 2), 0);
      led.Lookup(7, EMPTY_BJJ, 0) == Ok(33)
  {
  }
}
